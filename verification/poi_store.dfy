/** The POI state container (src/store/poi-store.ts): the current results,
    the search flags, the map hints, the active filter and the selection.

    Subscribers of this store compare the filter by object identity, so the
    state also carries which filter object is installed: reference 0 is the
    shared `DEFAULT_FILTER` object, and every write that builds a new filter
    object takes a reference never used before. */
module PoiStore {
  import opened Optional
  import opened PoiModel
  import opened FilterModel

  /** The shared `DEFAULT_FILTER` object. */
  const DefaultFilterRef: nat := 0

  /** `POIState`, plus the identity of the filter object. */
  datatype State = State(
    pois: seq<Poi>,
    isSearching: bool,
    searchError: Option<string>,
    searchRadius: real,
    suggestedZoom: Option<int>,
    filter: Filter,
    filterRef: nat,
    refsIssued: nat,
    lastSearchPosition: Option<Coord>,
    selectedPoiId: Option<string>)

  /** The reference of the installed filter was issued, and reference 0 is
      the default object. */
  predicate Valid(s: State) {
    s.filterRef <= s.refsIssued && (s.filterRef == DefaultFilterRef ==> s.filter == DefaultFilter)
  }

  /** `initialState`. */
  const Initial: State := State([], false, None, 1000.0, None, DefaultFilter, DefaultFilterRef, 0, None, None)

  /** The initial state shows nothing, is not searching, searches 1000 m
      around, filters by the default filter and selects nothing. */
  lemma InitialState()
    ensures Valid(Initial)
    ensures Initial.pois == [] && !Initial.isSearching && Initial.searchError.None?
    ensures Initial.searchRadius == 1000.0 && Initial.filter == DefaultFilter && Initial.selectedPoiId.None?
  {
  }

  /** `setPOIs`: new results end the search and clear its error. */
  function SetPois(s: State, pois: seq<Poi>): (r: State)
    ensures r.pois == pois && !r.isSearching && r.searchError.None?
    ensures r.(pois := s.pois, isSearching := s.isSearching, searchError := s.searchError) == s
  {
    s.(pois := pois, isSearching := false, searchError := None)
  }

  /** `setSearching`. */
  function SetSearching(s: State, searching: bool): (r: State)
    ensures r.isSearching == searching && r.(isSearching := s.isSearching) == s
  {
    s.(isSearching := searching)
  }

  /** `setSearchError`: setting the error, even to nothing, ends the search. */
  function SetSearchError(s: State, error: Option<string>): (r: State)
    ensures r.searchError == error && !r.isSearching
    ensures r.(searchError := s.searchError, isSearching := s.isSearching) == s
  {
    s.(searchError := error, isSearching := false)
  }

  /** `setSearchRadius`. */
  function SetSearchRadius(s: State, radius: real): (r: State)
    ensures r.searchRadius == radius && r.(searchRadius := s.searchRadius) == s
  {
    s.(searchRadius := radius)
  }

  /** `setSuggestedZoom`. */
  function SetSuggestedZoom(s: State, zoom: Option<int>): (r: State)
    ensures r.suggestedZoom == zoom && r.(suggestedZoom := s.suggestedZoom) == s
  {
    s.(suggestedZoom := zoom)
  }

  /** `Partial<POIFilter>`: the fields to overwrite. */
  datatype FilterUpdate = FilterUpdate(categories: Option<seq<PoiType>>, minRating: Option<real>, openNow: Option<bool>)

  /** `{ ...filter, ...update }`. */
  function MergeFilter(f: Filter, u: FilterUpdate): (r: Filter)
    ensures r.categories == u.categories.GetOr(f.categories)
    ensures r.minRating == u.minRating.GetOr(f.minRating)
    ensures r.openNow == u.openNow.GetOr(f.openNow)
  {
    Filter(u.categories.GetOr(f.categories), u.minRating.GetOr(f.minRating), u.openNow.GetOr(f.openNow))
  }

  /** Install a newly built filter object. */
  function InstallNewFilter(s: State, f: Filter): (r: State)
    requires Valid(s)
    ensures Valid(r) && r.filter == f && r.filterRef != s.filterRef && r.filterRef != DefaultFilterRef
    ensures r.(filter := s.filter, filterRef := s.filterRef, refsIssued := s.refsIssued) == s
  {
    s.(filter := f, filterRef := s.refsIssued + 1, refsIssued := s.refsIssued + 1)
  }

  /** `updateFilter`: only the supplied fields change, and the filter is a new
      object even when its content is the same. */
  function UpdateFilter(s: State, u: FilterUpdate): (r: State)
    requires Valid(s)
    ensures Valid(r) && r.filter == MergeFilter(s.filter, u) && r.filterRef != s.filterRef
  {
    InstallNewFilter(s, MergeFilter(s.filter, u))
  }

  /** An update with no fields keeps the content; updating one field keeps
      the other two. */
  lemma UpdateFilterOverwritesOnlySupplied(s: State, cats: seq<PoiType>, rating: real, open: bool)
    requires Valid(s)
    ensures UpdateFilter(s, FilterUpdate(None, None, None)).filter == s.filter
    ensures UpdateFilter(s, FilterUpdate(Some(cats), None, None)).filter == s.filter.(categories := cats)
    ensures UpdateFilter(s, FilterUpdate(None, Some(rating), None)).filter == s.filter.(minRating := rating)
    ensures UpdateFilter(s, FilterUpdate(None, None, Some(open))).filter == s.filter.(openNow := open)
  {
  }

  /** `resetFilter`: the shared default object. */
  function ResetFilter(s: State): (r: State)
    requires Valid(s)
    ensures Valid(r) && r.filter == DefaultFilter && r.filterRef == DefaultFilterRef
    ensures r.(filter := s.filter, filterRef := s.filterRef) == s
  {
    s.(filter := DefaultFilter, filterRef := DefaultFilterRef)
  }

  /** `setLastSearchPosition`. */
  function SetLastSearchPosition(s: State, lat: real, lng: real): (r: State)
    ensures r.lastSearchPosition == Some(Coord(lat, lng)) && r.(lastSearchPosition := s.lastSearchPosition) == s
  {
    s.(lastSearchPosition := Some(Coord(lat, lng)))
  }

  /** `setSelectedPOI`. */
  function SetSelectedPoi(s: State, id: Option<string>): (r: State)
    ensures r.selectedPoiId == id && r.(selectedPoiId := s.selectedPoiId) == s
  {
    s.(selectedPoiId := id)
  }

  /** `clearPOIs`: drop the results with their zoom hint and selection; the
      filter, the radius and the last search position stay. */
  function ClearPois(s: State): (r: State)
    ensures r.pois == [] && r.suggestedZoom.None? && r.selectedPoiId.None?
    ensures r.filter == s.filter && r.filterRef == s.filterRef && r.searchRadius == s.searchRadius
    ensures r.lastSearchPosition == s.lastSearchPosition && r.isSearching == s.isSearching && r.searchError == s.searchError
  {
    s.(pois := [], suggestedZoom := None, selectedPoiId := None)
  }

  /** Every action keeps the state valid. */
  lemma ActionsKeepValid(s: State, pois: seq<Poi>, b: bool, e: Option<string>, x: real, y: real, z: Option<int>, id: Option<string>)
    requires Valid(s)
    ensures Valid(SetPois(s, pois)) && Valid(SetSearching(s, b)) && Valid(SetSearchError(s, e))
    ensures Valid(SetSearchRadius(s, x)) && Valid(SetSuggestedZoom(s, z)) && Valid(SetLastSearchPosition(s, x, y))
    ensures Valid(SetSelectedPoi(s, id)) && Valid(ClearPois(s))
  {
  }
}
