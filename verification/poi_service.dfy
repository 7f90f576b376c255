/** The POI search service (src/services/poi-service.ts): a memory tier of
    one entry, a persisted tier in the POI table, and the remote search, tried
    in that order, with every result re-measured from the query centre and
    sorted nearest first.

    The clock is one `now` for the whole call; the two distance formulas,
    the persisted table, its read and write faults, and the remote responses
    are parameters. */
module PoiService {
  import opened Optional
  import opened PoiModel
  import opened Interfaces
  import Seqs
  import StorageAdapter
  import PlacesApi

  /** `CACHE_EXPIRY_MS`: 10 minutes. */
  const CacheExpiryMs: int := 600000
  /** `CACHE_DISTANCE_THRESHOLD`, in meters. */
  const CacheDistanceThreshold: real := 200.0

  /** `SearchParams`. */
  datatype SearchParams = SearchParams(latitude: real, longitude: real, radius: real, types: seq<PoiType>)

  /** `CacheEntry`: the results of one search with the parameters and the
      time it was made. */
  datatype CacheEntry = CacheEntry(pois: seq<Poi>, latitude: real, longitude: real, radius: real, types: seq<PoiType>, timestamp: int)

  /** The entry a search installs for its parameters. */
  function EntryFor(pois: seq<Poi>, params: SearchParams, now: int): CacheEntry {
    CacheEntry(pois, params.latitude, params.longitude, params.radius, params.types, now)
  }

  function Centre(params: SearchParams): Coord {
    Coord(params.latitude, params.longitude)
  }

  /** The storage faults of one call; each is caught and logged. */
  datatype Faults = Faults(readFails: bool, writeFails: bool)

  /** A fresh entry answers a query when the query centre is within 200 m of
      the entry's, the radius is no larger, and every requested type was
      searched; with no requested types the last test holds vacuously. */
  predicate Compatible(e: CacheEntry, params: SearchParams, distance: DistanceFn) {
    && distance(Centre(params), Coord(e.latitude, e.longitude)) <= CacheDistanceThreshold
    && params.radius <= e.radius
    && forall i :: 0 <= i < |params.types| ==> params.types[i] in e.types
  }

  predicate Expired(e: CacheEntry, now: int) {
    now - e.timestamp > CacheExpiryMs
  }

  /** `checkCache`: the memory tier after the check (an expired entry is
      dropped) and the hit, if any. */
  function CheckCache(memory: Option<CacheEntry>, params: SearchParams, now: int, distance: DistanceFn): (r: (Option<CacheEntry>, Option<seq<Poi>>))
    ensures r.1.Some? <==> memory.Some? && !Expired(memory.value, now) && Compatible(memory.value, params, distance)
    ensures r.1.Some? ==> r.1.value == memory.value.pois
    ensures memory.Some? && Expired(memory.value, now) ==> r.0.None?
    ensures !(memory.Some? && Expired(memory.value, now)) ==> r.0 == memory
  {
    match memory
    case None => (None, None)
    case Some(e) =>
      if Expired(e, now) then (None, None)
      else if Compatible(e, params, distance) then (memory, Some(e.pois))
      else (memory, None)
  }

  /** The test `checkDBCache` keeps a row by. */
  function RequestedType(types: seq<PoiType>): CachedPoi -> bool {
    (row: CachedPoi) => row.poi.poiType in types
  }

  /** The POI a persisted row holds. */
  function PoiOf(row: CachedPoi): Poi {
    row.poi
  }

  /** The persisted rows of requested types. */
  function OfTypes(rows: seq<CachedPoi>, types: seq<PoiType>): seq<CachedPoi> {
    Seqs.Filter(RequestedType(types), rows)
  }

  /** The POIs of the rows of requested types are the POI of every such row,
      once per row, in the order the rows were read, and nothing else. */
  lemma OfTypesPois(rows: seq<CachedPoi>, types: seq<PoiType>)
    ensures var pois := Seqs.Map(PoiOf, OfTypes(rows, types));
      && Seqs.IsSubsequence(pois, Seqs.Map(PoiOf, rows))
      && |pois| == Seqs.Count(RequestedType(types), rows)
      && (forall i :: 0 <= i < |rows| && rows[i].poi.poiType in types ==> rows[i].poi in pois)
      && (forall i :: 0 <= i < |pois| ==> pois[i].poiType in types)
  {
    var kept := OfTypes(rows, types);
    var pois := Seqs.Map(PoiOf, kept);
    Seqs.FilterIsSubsequence(RequestedType(types), rows);
    Seqs.MapSubsequence(PoiOf, kept, rows);
    Seqs.FilterLength(RequestedType(types), rows);
    forall i | 0 <= i < |rows| && rows[i].poi.poiType in types
      ensures rows[i].poi in pois
    {
      assert RequestedType(types)(rows[i]);
      var j :| 0 <= j < |kept| && kept[j] == rows[i];
      assert pois[j] == rows[i].poi;
    }
  }

  /** `checkDBCache`: read the rows in the window; none is a miss; fewer than
      half of them of the requested types is a miss; otherwise the rows of
      the requested types. A failing read is a miss. */
  function CheckDbCache(table: seq<CachedPoi>, params: SearchParams, now: int, approx: DistanceFn, faults: Faults): (r: Option<seq<Poi>>)
    ensures faults.readFails ==> r.None?
    ensures r.Some? ==> forall i :: 0 <= i < |r.value| ==> r.value[i].poiType in params.types
    ensures r.Some? ==>
      var cached := StorageAdapter.GetCachedPois(table, params.latitude, params.longitude, params.radius, None, now, approx);
      && Seqs.IsSubsequence(r.value, Seqs.Map(PoiOf, cached))
      && |r.value| == Seqs.Count(RequestedType(params.types), cached)
      && forall i :: 0 <= i < |cached| && cached[i].poi.poiType in params.types ==> cached[i].poi in r.value
  {
    if faults.readFails then None
    else
      var cached := StorageAdapter.GetCachedPois(table, params.latitude, params.longitude, params.radius, None, now, approx);
      if |cached| == 0 then None
      else
        var filtered := OfTypes(cached, params.types);
        if 2 * |filtered| < |cached| then None
        else
          OfTypesPois(cached, params.types);
          Some(Seqs.Map(PoiOf, filtered))
  }

  /** The persisted tier hits exactly when the read is non-empty and at least
      half of what it returned is of the requested types; exactly half still
      hits. */
  lemma DbCacheHitRule(table: seq<CachedPoi>, params: SearchParams, now: int, approx: DistanceFn, faults: Faults)
    requires !faults.readFails
    ensures var cached := StorageAdapter.GetCachedPois(table, params.latitude, params.longitude, params.radius, None, now, approx);
      CheckDbCache(table, params, now, approx, faults).Some? <==>
        |cached| > 0 && 2 * |OfTypes(cached, params.types)| >= |cached|
  {
  }

  /** Re-measure one POI from the query centre. */
  function Remeasure(p: Poi, centre: Coord, distance: DistanceFn): Poi {
    p.(distance := distance(centre, p.location))
  }

  function DistanceKey(p: Poi): real {
    p.distance
  }

  /** `recalculateDistances`: every POI re-measured from the centre, nearest
      first. */
  function RecalculateDistances(pois: seq<Poi>, centre: Coord, distance: DistanceFn): seq<Poi> {
    Seqs.SortBy(DistanceKey, Seqs.Map((p: Poi) => Remeasure(p, centre, distance), pois))
  }

  /** The result holds the same POIs, each with only its distance replaced by
      the distance from the centre, as many times as in the input, in
      ascending order of distance. */
  lemma RecalculateDistancesSpec(pois: seq<Poi>, centre: Coord, distance: DistanceFn)
    ensures var r := RecalculateDistances(pois, centre, distance);
      && |r| == |pois|
      && Seqs.SortedBy(DistanceKey, r)
      && multiset(r) == multiset(Seqs.Map((p: Poi) => Remeasure(p, centre, distance), pois))
      && forall i :: 0 <= i < |r| ==>
           r[i].distance == distance(centre, r[i].location)
           && exists j :: 0 <= j < |pois| && r[i] == pois[j].(distance := r[i].distance)
  {
    var mapped := Seqs.Map((p: Poi) => Remeasure(p, centre, distance), pois);
    Seqs.SortBySorted(DistanceKey, mapped);
    var r := RecalculateDistances(pois, centre, distance);
    assert |r| == |multiset(r)| == |multiset(mapped)| == |mapped|;
    forall i | 0 <= i < |r|
      ensures r[i].distance == distance(centre, r[i].location)
      ensures exists j :: 0 <= j < |pois| && r[i] == pois[j].(distance := r[i].distance)
    {
      assert r[i] in multiset(r);
      assert r[i] in mapped;
      var j :| 0 <= j < |mapped| && mapped[j] == r[i];
      assert r[i] == pois[j].(distance := r[i].distance);
    }
  }

  /** `updateDBCache`: every POI written with the time and the query
      parameters; a failing write is swallowed. */
  function UpdateDbCache(table: seq<CachedPoi>, pois: seq<Poi>, params: SearchParams, now: int, faults: Faults): seq<CachedPoi> {
    if faults.writeFails then table
    else StorageAdapter.CachePois(table, Seqs.Map((p: Poi) => CachedPoi(p, now, params.latitude, params.longitude, params.radius), pois))
  }

  /** After a successful write-through each written POI's id holds a row for
      it stamped with this call's time and query, and ids stay distinct. */
  lemma UpdateDbCacheWritesThrough(table: seq<CachedPoi>, pois: seq<Poi>, params: SearchParams, now: int, faults: Faults, k: int)
    requires !faults.writeFails && 0 <= k < |pois|
    ensures var row := StorageAdapter.Lookup(UpdateDbCache(table, pois, params, now, faults), pois[k].id);
      && row.Some? && row.value.poi.id == pois[k].id && row.value.poi in pois
      && row.value.cachedAt == now && row.value.searchLat == params.latitude
      && row.value.searchLng == params.longitude && row.value.searchRadius == params.radius
    ensures StorageAdapter.UniqueIds(table) ==> StorageAdapter.UniqueIds(UpdateDbCache(table, pois, params, now, faults))
  {
    var rows := Seqs.Map((p: Poi) => CachedPoi(p, now, params.latitude, params.longitude, params.radius), pois);
    StorageAdapter.CachePoisUpserts(table, rows, pois[k].id);
    assert rows[k].poi.id == pois[k].id;
    StorageAdapter.LastWithIdOfMember(rows, k);
    StorageAdapter.LastWithIdSome(rows, pois[k].id);
    var last := StorageAdapter.LastWithId(rows, pois[k].id).value;
    var j :| 0 <= j < |rows| && rows[j] == last;
  }

  /** The tier that answered. */
  datatype Tier = MemoryTier | PersistedTier | RemoteTier

  /** The service and table after a search, and its answer. */
  datatype Outcome = Outcome(memory: Option<CacheEntry>, table: seq<CachedPoi>, tier: Tier, result: Result<seq<Poi>, PlacesApi.ApiError>)

  /** `searchNearby`. `remote` is the proxy's response to the search. */
  function SearchNearby(memory: Option<CacheEntry>, table: seq<CachedPoi>, params: SearchParams, now: int,
                        distance: DistanceFn, approx: DistanceFn, faults: Faults, remote: PlacesApi.Response): (o: Outcome)
    ensures o.tier == MemoryTier <==> CheckCache(memory, params, now, distance).1.Some?
    ensures o.tier == MemoryTier ==> o.table == table && o.result.Ok?
    ensures o.tier == PersistedTier ==> o.table == table && o.result.Ok?
  {
    var (memory1, hit) := CheckCache(memory, params, now, distance);
    if hit.Some? then
      Outcome(memory1, table, MemoryTier, Ok(RecalculateDistances(hit.value, Centre(params), distance)))
    else
      var dbHit := CheckDbCache(table, params, now, approx, faults);
      if dbHit.Some? then
        Outcome(Some(EntryFor(dbHit.value, params, now)), table, PersistedTier,
                Ok(RecalculateDistances(dbHit.value, Centre(params), distance)))
      else
        match PlacesApi.SearchNearby(remote)
        case Err(e) => Outcome(memory1, table, RemoteTier, Err(e))
        case Ok(pois) =>
          var sorted := RecalculateDistances(pois, Centre(params), distance);
          Outcome(Some(EntryFor(sorted, params, now)), UpdateDbCache(table, sorted, params, now, faults), RemoteTier, Ok(sorted))
  }

  /** The memory tier answers exactly when there is an unexpired entry
      compatible with the query; its answer is the entry re-measured and
      sorted, and the entry stays as it was. */
  lemma MemoryHitRequiresAll(memory: Option<CacheEntry>, table: seq<CachedPoi>, params: SearchParams, now: int,
                             distance: DistanceFn, approx: DistanceFn, faults: Faults, remote: PlacesApi.Response)
    ensures var o := SearchNearby(memory, table, params, now, distance, approx, faults, remote);
      o.tier == MemoryTier <==>
        && memory.Some?
        && now - memory.value.timestamp <= CacheExpiryMs
        && distance(Centre(params), Coord(memory.value.latitude, memory.value.longitude)) <= 200.0
        && params.radius <= memory.value.radius
        && (forall t :: t in params.types ==> t in memory.value.types)
    ensures var o := SearchNearby(memory, table, params, now, distance, approx, faults, remote);
      o.tier == MemoryTier ==>
        o.memory == memory && o.result == Ok(RecalculateDistances(memory.value.pois, Centre(params), distance))
  {
    if memory.Some? {
      var e := memory.value;
      assert (forall t :: t in params.types ==> t in e.types) <==>
             (forall i :: 0 <= i < |params.types| ==> params.types[i] in e.types);
    }
  }

  /** With no requested types the type test of the memory tier always
      passes: there is no short-circuit for an empty category list. */
  lemma EmptyTypesAlwaysCompatible(e: CacheEntry, params: SearchParams, distance: DistanceFn)
    requires params.types == []
    ensures Compatible(e, params, distance) <==>
      distance(Centre(params), Coord(e.latitude, e.longitude)) <= 200.0 && params.radius <= e.radius
  {
  }

  /** An expired entry is never used, and it does not survive the call: it
      is replaced by a new entry or dropped. */
  lemma ExpiredEntryDiscarded(memory: Option<CacheEntry>, table: seq<CachedPoi>, params: SearchParams, now: int,
                              distance: DistanceFn, approx: DistanceFn, faults: Faults, remote: PlacesApi.Response)
    requires memory.Some? && Expired(memory.value, now)
    ensures var o := SearchNearby(memory, table, params, now, distance, approx, faults, remote);
      o.tier != MemoryTier && (o.memory.None? || o.memory.value.timestamp == now)
  {
  }

  /** A persisted hit installs an entry for the query parameters at `now`
      holding the persisted POIs; a failing read goes on to the remote
      search and is never reported. */
  lemma PersistedHitInstallsEntry(memory: Option<CacheEntry>, table: seq<CachedPoi>, params: SearchParams, now: int,
                                  distance: DistanceFn, approx: DistanceFn, faults: Faults, remote: PlacesApi.Response)
    ensures var o := SearchNearby(memory, table, params, now, distance, approx, faults, remote);
      o.tier == PersistedTier ==>
        var hit := CheckDbCache(table, params, now, approx, faults);
        hit.Some? && o.memory == Some(EntryFor(hit.value, params, now))
        && o.result == Ok(RecalculateDistances(hit.value, Centre(params), distance))
    ensures faults.readFails ==> SearchNearby(memory, table, params, now, distance, approx, faults, remote).tier != PersistedTier
  {
  }

  /** A successful remote search answers with the transformed places
      re-measured and sorted, installs them as the memory entry for the query
      parameters, and writes each of them to the table stamped with this
      call's time and query. A failed one reports the proxy's error and
      writes nothing. */
  lemma RemoteFetchWritesThrough(memory: Option<CacheEntry>, table: seq<CachedPoi>, params: SearchParams, now: int,
                                 distance: DistanceFn, approx: DistanceFn, faults: Faults, remote: PlacesApi.Response, k: int)
    ensures var o := SearchNearby(memory, table, params, now, distance, approx, faults, remote);
      o.tier == RemoteTier && o.result.Ok? ==>
        && PlacesApi.SearchNearby(remote).Ok?
        && o.result.value == RecalculateDistances(PlacesApi.SearchNearby(remote).value, Centre(params), distance)
        && o.memory == Some(EntryFor(o.result.value, params, now))
        && (!faults.writeFails && 0 <= k < |o.result.value| ==>
              var row := StorageAdapter.Lookup(o.table, o.result.value[k].id);
              row.Some? && row.value.cachedAt == now && row.value.searchLat == params.latitude
              && row.value.searchLng == params.longitude && row.value.searchRadius == params.radius)
    ensures var o := SearchNearby(memory, table, params, now, distance, approx, faults, remote);
      o.tier == RemoteTier && o.result.Err? ==> o.table == table && PlacesApi.SearchNearby(remote).Err?
  {
    var o := SearchNearby(memory, table, params, now, distance, approx, faults, remote);
    if o.tier == RemoteTier && o.result.Ok? && !faults.writeFails && 0 <= k < |o.result.value| {
      UpdateDbCacheWritesThrough(table, o.result.value, params, now, faults, k);
    }
  }

  /** `getPlaceDetails`: the first POI of the memory entry with the id, or
      else whatever the remote lookup gives. */
  function GetPlaceDetails(memory: Option<CacheEntry>, placeId: string, remote: PlacesApi.Response): (r: Result<Poi, PlacesApi.ApiError>)
    ensures memory.Some? && (exists i :: 0 <= i < |memory.value.pois| && memory.value.pois[i].id == placeId) ==>
      r.Ok? && r.value.id == placeId && r.value in memory.value.pois
    ensures memory.Some? && (exists i :: 0 <= i < |memory.value.pois| && memory.value.pois[i].id == placeId) ==>
      exists i :: 0 <= i < |memory.value.pois| && memory.value.pois[i] == r.value
                  && forall j :: 0 <= j < i ==> memory.value.pois[j].id != placeId
    ensures (memory.None? || forall i :: 0 <= i < |memory.value.pois| ==> memory.value.pois[i].id != placeId) ==>
      r == PlacesApi.GetPlaceDetails(remote)
  {
    var cached := if memory.Some? then Seqs.Find((p: Poi) => p.id == placeId, memory.value.pois) else None;
    if cached.Some? then Ok(cached.value) else PlacesApi.GetPlaceDetails(remote)
  }

  /** `clearCache`. */
  function ClearCache(memory: Option<CacheEntry>): (r: Option<CacheEntry>)
    ensures r.None?
  {
    None
  }

  /** After clearing, the next search never answers from memory. */
  lemma ClearedCacheMisses(memory: Option<CacheEntry>, table: seq<CachedPoi>, params: SearchParams, now: int,
                           distance: DistanceFn, approx: DistanceFn, faults: Faults, remote: PlacesApi.Response)
    ensures SearchNearby(ClearCache(memory), table, params, now, distance, approx, faults, remote).tier != MemoryTier
  {
  }
}
