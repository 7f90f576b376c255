# RoadTripper — a Dafny model of the client orchestration and the proxy mappers

RoadTripper is a road-trip companion. It tracks the traveller's position,
counts the distance driven and the searches made against a daily quota, and
searches nearby points of interest (restaurants, cafés, attractions, hotels,
gas stations, convenience stores) through a small proxy in front of Google
Places. Results are cached in memory and in IndexedDB. They are filtered by
category, rating and opening status, and the filter and theme are kept as
user preferences.

This project models that logic as immutable records and pure
state-to-state functions, one Dafny module per source file:

- the quota ledger and its persistence: `QuotaStore`, `DistanceService`;
- geometry and display helpers: `Geo`, `Format`;
- the location stack: `LocationStore`, `LocationAdapter`, `UseLocation`;
- the two-tier POI cache: `PoiService`, `StorageAdapter`, and the client API `PlacesApi`;
- the search gate and its auto-trigger: `UsePoi`, `PoiStore`;
- filtering and preferences: `FilteredPois`, `FilterModel`, `FilterService`;
- the interface state: `UiStore`;
- the proxy worker: `Worker`, covering classification, price levels, validation, the transform and CORS;
- navigation links: `Navigation`;
- the location simulator: `Simulator`;
- the mock data and its filters: `MockPois`.

Shared helpers live in `Optional` (`Option`/`Result`), `Strings` (split,
join, lower-casing, number text), `Seqs` (filter, find, sort, subsequence),
`Uri` (`encodeURIComponent`) and `Interfaces` / `PoiModel` (the records of
the core interfaces and the POI model).

Whatever is impure becomes an explicit parameter:

- the distance functions (haversine, equirectangular) are `DistanceFn` values;
- the clock is `now` (milliseconds) and `today` (a date string);
- storage is a table of cached rows plus single-row quota and preferences
  records, and storage faults are flags;
- the system colour-scheme preference is a flag;
- number-to-text rendering in links is a `Render` function;
- the simulator's heading trigonometry is an `AngleFn`.

Timers are modelled as deadlines. A debounced save is a single pending
`saveDueAt`, and rescheduling replaces it. An interval or a geolocation
watch is a handle in a set of active handles.

JavaScript numbers are modelled by type:

- coordinates, distances and ratings are `real`;
- times, counts and levels are `int`;
- JavaScript truthiness is written out where the code relies on it (`0`, `""` and absent values are falsy).

## Model

| member | source | states |
|---|---|---|
| QuotaStore.AddDistance | src/store/quota-store.ts:38-41 | the traveled counter grows by exactly the meters given and no other field of the ledger changes |
| QuotaStore.IncrementSearchCount | src/store/quota-store.ts:43-46 | the search counter rises by exactly one and no other field changes |
| QuotaStore.GetDistancePercentage | src/store/quota-store.ts:69-72 | for a positive limit the percentage is a number in [0, 100] (for non-negative distance) and equals traveled/limit·100 below the limit |
| QuotaStore.ResetRestoresDefaults | src/store/quota-store.ts:24-33 | reset yields zero counters, limits 5000 m and 100 searches, the module-load date, and neither limit is exceeded |
| QuotaStore.Initial | src/store/quota-store.ts:27-33 | the initial ledger; ResetRestoresDefaults states its zero counters, 5000 m and 100 searches, and the module-load date |
| QuotaStore.AddDistanceAccumulates | src/store/quota-store.ts:38-41 | non-negative meters never decrease the counter, and two additions equal one addition of their sum |
| QuotaStore.DistanceLimitExample | src/store/quota-store.ts:59-62 | with limit 5000 and 4999 m traveled the limit is not reached, and two more meters reach it |
| QuotaStore.ExceededIsSticky | src/store/quota-store.ts:38-46 | once either limit is reached, adding non-negative distance or counting a search keeps it reached |
| QuotaStore.CheckAndResetBehaviour | src/store/quota-store.ts:48-57 | a new day zeroes both counters, sets the date to today and keeps both limits; the same day changes nothing; the check is idempotent |
| QuotaStore.CheckAndResetIfNeeded | src/store/quota-store.ts:48-57 | the day rollover; CheckAndResetBehaviour states a new day zeroes both counters keeping the limits, the same day changes nothing, and it is idempotent |
| QuotaStore.Reset | src/store/quota-store.ts:74 | reset to the initial state; ResetRestoresDefaults states zero counters, the default limits and the module-load date |
| QuotaStore.FullPercentageIffExceeded | src/store/quota-store.ts:59-72 | for a positive limit the percentage is exactly 100 if and only if the distance limit is reached |
| QuotaStore.IsDistanceExceeded | src/store/quota-store.ts:59-62 | the inclusive distance test; FullPercentageIffExceeded states it holds exactly when the percentage is 100, DistanceLimitExample shows 5000 m counts, ExceededIsSticky that it stays reached |
| QuotaStore.IsSearchExceeded | src/store/quota-store.ts:64-67 | the inclusive search test; ExceededIsSticky states it stays reached, and UsePoi.SearchWhenExceeded that a search is then refused without counting |
| DistanceService.DebouncedSave | src/services/distance-service.ts:71-79 | any pending save is replaced by a single one due 2000 ms after now |
| DistanceService.SetStoreSchedulesOnCounterChange | src/services/distance-service.ts:104-112 | a ledger write schedules a save exactly when distance or search count changed, otherwise the service is untouched |
| DistanceService.SetStore | src/services/distance-service.ts:104-112 | a ledger write plus the subscription; SetStoreSchedulesOnCounterChange states a save is scheduled exactly when distance or count changed |
| DistanceService.LedgerActionsScheduleSave | src/services/distance-service.ts:104-112 | adding non-zero distance or counting a search always schedules a save |
| DistanceService.SyncToStoreAgrees | src/services/distance-service.ts:81-98 | after a sync the ledger agrees with the record on distance, count and date; a record differing only in its limits is ignored |
| DistanceService.SyncToStore | src/services/distance-service.ts:81-98 | the sync into the ledger; SyncToStoreAgrees states the ledger then agrees with the record on distance, count and date |
| DistanceService.SaveQuota | src/services/distance-service.ts:51-68 | a successful save stores the whole ledger record; a failing one changes nothing |
| DistanceService.DebounceWaitsForQuiet | src/services/distance-service.ts:71-79 | no save runs before the quiet period ends; after it the pending save runs once and stores the ledger |
| DistanceService.TimerTick | src/services/distance-service.ts:71-79 | the pending save at a time; DebounceWaitsForQuiet states nothing runs before the deadline and one save of the ledger runs after it |
| DistanceService.InitializeRollsOverStaleQuota | src/services/distance-service.ts:27-35 | a stored quota from an earlier day is written back and synced with zero counters and today's date, keeping the stored limits |
| DistanceService.InitializeKeepsSameDayQuota | src/services/distance-service.ts:36-38 | a stored quota from today is synced into the ledger unchanged and not rewritten |
| DistanceService.InitializeWritesDefault | src/services/distance-service.ts:39-42 | with nothing stored, the default quota is written and the ledger is left alone |
| DistanceService.InitializeRunsOnce | src/services/distance-service.ts:18-48 | after a successful run further calls change nothing; a failed read, or a failed write that was needed, changes nothing so the next call tries again |
| DistanceService.Initialize | src/services/distance-service.ts:18-48 | the one-time load; the rollover, same-day, default and run-once cases are stated by the four Initialize lemmas above |
| Geo.MovementBand | src/core/utils/geo.ts:96-98 | a delta is real movement (not drift) exactly when it lies in the closed band [10, 500] |
| Geo.IsGpsDrift | src/core/utils/geo.ts:96-98 | the drift test; MovementBand states a delta is not drift exactly when it lies in [10, 500] |
| Geo.CalculateBounds | src/core/utils/geo.ts:105-125 | an empty list is an error with the source's message; otherwise the box holds every point and each edge is some point's coordinate; one point gives min = max |
| Geo.NormalizeBearingRange | src/core/utils/geo.ts:85-88 | an atan2 angle in [-180, 180] is mapped into [0, 360) onto the same direction |
| Geo.NormalizeBearing | src/core/utils/geo.ts:85-88 | (x + 360) % 360; NormalizeBearingRange states an atan2 angle lands in [0, 360) on the same direction |
| Format.FormatPriceLevel | src/core/utils/format.ts:18-21 | levels 1 to 4 give that many `$`, anything else (absent, 0, out of range) gives the empty text |
| Format.FormatOpenStatusInjective | src/core/utils/format.ts:52-55 | the three open states (unknown, open, closed) get three different labels |
| Format.FormatOpenStatus | src/core/utils/format.ts:52-55 | the open-status label; FormatOpenStatusInjective states unknown, open and closed get three different labels |
| Format.FormatDistanceUnit | src/core/utils/format.ts:6-11 | the unit is meters exactly below 1000 m; meters are rounded to within half a meter, kilometers are the exact quotient |
| Format.FormatDistance | src/core/utils/format.ts:6-11 | the distance display; FormatDistanceUnit states meters below 1000 m (rounded) and kilometers from 1000 m |
| Format.FormatRatingCountBranches | src/core/utils/format.ts:37-45 | counts below 1000 are shown in full and read back as the count; below a million they are thousands with K, otherwise millions with M |
| Format.FormatRatingCount | src/core/utils/format.ts:37-45 | the count display; FormatRatingCountBranches states the full count below 1000, thousands with K below a million, millions with M above |
| Format.TodayIsDatePart | src/core/utils/format.ts:60-62 | the date is the longest T-free prefix of the ISO timestamp, i.e. its first ten characters for a UTC ISO stamp |
| Format.GetTodayDateString | src/core/utils/format.ts:60-62 | the date part of the ISO timestamp; TodayIsDatePart states it is the longest prefix without a T |
| Format.IsTodayOfToday | src/core/utils/format.ts:68-70 | the date of a timestamp is today for that timestamp, and no text containing T is |
| Format.IsToday | src/core/utils/format.ts:68-70 | the same-day test; IsTodayOfToday states today's date passes and no text containing T does |
| PoiModel.ParseTypeName | src/core/models/poi.ts:4-10 | a name parses to the category with that name, and to nothing if no category has it |
| PoiModel.ParseTypeNameRoundTrip | src/core/models/poi.ts:4-10 | every category's name parses back to that category |
| PoiModel.ParseCategories | src/services/filter-service.ts:21-27 | the parsed categories are among the stored names, every stored name of a category is kept, and there are no more of them than names |
| PoiModel.ParseCategoryNames | src/services/filter-service.ts:45-53 | writing a category list as names and parsing it back gives the same list |
| PoiModel.CategoryNamesMembership | src/services/filter-service.ts:45-53 | a category's name is in the written list exactly when the category is in the list |
| PoiModel.GoogleTypeNameInjective | src/core/models/poi.ts:15-22 | the category-to-Google-type table sends different categories to different types |
| PoiModel.ZoomBands | src/core/models/poi.ts:119-125 | zoom is 15 up to 1000 m, 14 up to 3000 m, 13 up to 5000 m and 12 beyond, always within [12, 15] |
| PoiModel.ZoomNonIncreasing | src/core/models/poi.ts:119-125 | a larger radius never gets a larger zoom |
| PoiModel.GetZoomForRadius | src/core/models/poi.ts:119-125 | the zoom for a radius; ZoomBands states the four bands 15, 14, 13, 12 and ZoomNonIncreasing that a larger radius never zooms in further |
| FilterModel.TiersPartitionCategories | src/core/models/filter.ts:27-48 | the free and premium lists are disjoint and cover all six categories, and the full list has six distinct entries |
| FilterModel.DefaultFilterIsFreeTier | src/core/models/filter.ts:18-22 | the default filter has a non-empty list of free-tier categories only, minimum rating 4 and open-now off |
| UseLocation.HandlePositionUpdate | src/hooks/useLocation.tsx:49-70 | every sample becomes the current position and the next reference; only the traveled counter of the ledger may change |
| UseLocation.PositionUpdateAccounting | src/hooks/useLocation.tsx:52-64 | the first sample or untracked distance adds nothing; otherwise the delta is added exactly when it is in the movement band |
| UseLocation.HandleError | src/hooks/useLocation.tsx:75-91 | a denial records the error and the denied permission, unavailable and timeout change nothing, any other code records only the error |
| UseLocation.StartTracking | src/hooks/useLocation.tsx:72-94 | tracking is on with exactly one active watch; the rest of the location state is kept |
| UseLocation.StopTracking | src/hooks/useLocation.tsx:96-99 | tracking is off and no watch remains; the rest of the location state is kept |
| UseLocation.RequestPermission | src/hooks/useLocation.tsx:101-105 | the permission becomes granted exactly when the adapter grants, denied otherwise, and is returned |
| UseLocation.CheckPermissionOnMount | src/hooks/useLocation.tsx:108-110 | the permission state becomes what the adapter's check reports |
| UseLocation.AutoStartEffect | src/hooks/useLocation.tsx:113-116 | tracking starts when auto-start is on and permission is granted, otherwise nothing changes |
| UseLocation.AutoStartOnlyWhenGranted | src/hooks/useLocation.tsx:113-116 | after the effect tracking is on exactly when auto-start is on and permission is granted (from a non-tracking state) |
| UseLocation.AutoStartCleanup | src/hooks/useLocation.tsx:118-122 | the cleanup stops tracking only if tracking was on when the effect ran |
| UseLocation.ProcessSamplesAccounts | src/hooks/useLocation.tsx:49-70 | over a stream of samples the ledger gains exactly the sum of in-band consecutive deltas, and the last sample is current position and reference |
| UseLocation.ProcessSamples | src/hooks/useLocation.tsx:49-70 | a stream of samples; ProcessSamplesAccounts states the ledger gains exactly the in-band consecutive deltas |
| UseLocation.AcceptedDistanceBounds | src/hooks/useLocation.tsx:52-64 | a stream of n samples adds between 0 and 500·n meters, and a first sample alone adds nothing |
| StorageAdapter.Put | src/adapters/web/storage-adapter.ts:15-17 | after an upsert the id holds the new row, every other id holds what it held, and no foreign row appears |
| StorageAdapter.PutKeepsUniqueIds | src/adapters/web/storage-adapter.ts:15-17 | an upsert keeps the ids of the table distinct |
| StorageAdapter.CachePoisUpserts | src/adapters/web/storage-adapter.ts:15-17 | after a bulk upsert each written id holds the last row written for it, other ids are unchanged, ids stay distinct |
| StorageAdapter.CachePois | src/adapters/web/storage-adapter.ts:15-17 | the bulk upsert; CachePoisUpserts states last-write-wins per id, other ids unchanged and ids distinct |
| StorageAdapter.GetCachedPoisExactly | src/adapters/web/storage-adapter.ts:19-34 | the read returns exactly the rows newer than now − maxAge (10 minutes by default) whose search centre is within the radius, in table order |
| StorageAdapter.GetCachedPois | src/adapters/web/storage-adapter.ts:19-34 | the windowed read; GetCachedPoisExactly states it returns exactly the rows in the age and distance window, in table order |
| StorageAdapter.ClearExpiredCacheExactly | src/adapters/web/storage-adapter.ts:36-39 | the sweep deletes exactly the rows older than the cutoff; a row at the cutoff is neither deleted nor read |
| StorageAdapter.ClearExpiredCache | src/adapters/web/storage-adapter.ts:36-39 | the sweep; ClearExpiredCacheExactly states it deletes exactly the rows written before the cutoff, and ClearExpiredKeepsReadable that a read with the same age is unchanged |
| StorageAdapter.ClearExpiredKeepsReadable | src/adapters/web/storage-adapter.ts:19-39 | sweeping with an age never changes what a read with the same age and clock returns |
| StorageAdapter.SingleRowRoundTrips | src/adapters/web/storage-adapter.ts:41-65 | quota and preferences read back what was written, an empty database has neither, and each write touches only its own table |
| StorageAdapter.GetPreferences | src/adapters/web/storage-adapter.ts:41-48 | the preferences row without its id; SingleRowRoundTrips states it reads back what SavePreferences wrote |
| StorageAdapter.SavePreferences | src/adapters/web/storage-adapter.ts:50-52 | put with id 1; SingleRowRoundTrips states it overwrites the single row and leaves the other tables alone |
| StorageAdapter.GetQuota | src/adapters/web/storage-adapter.ts:54-61 | the quota row without its id; SingleRowRoundTrips states it reads back what UpdateQuota wrote |
| StorageAdapter.UpdateQuota | src/adapters/web/storage-adapter.ts:63-65 | put with id 1; SingleRowRoundTrips states it overwrites the single row and leaves the other tables alone |
| PoiService.CheckCache | src/services/poi-service.ts:101-138 | a hit happens exactly for an unexpired compatible entry and returns its POIs; an expired entry is discarded, any other is kept |
| PoiService.CheckDbCache | src/services/poi-service.ts:140-164 | a failing read is a miss; on a hit the answer is the POI of every requested-type row of the read, in read order (a subsequence of the read), one per such row, and only POIs of requested types |
| PoiService.OfTypesPois | src/services/poi-service.ts:150-159 | the POIs kept from the read are exactly those of its requested-type rows, once per row and in read order |
| PoiService.DbCacheHitRule | src/services/poi-service.ts:150-159 | the persisted tier hits exactly when the read is non-empty and at least half of it (half included) is of the requested types |
| PoiService.RecalculateDistancesSpec | src/services/poi-service.ts:187-199 | the result is the input POIs with only their distance recomputed from the query centre, same multiplicity, sorted ascending |
| PoiService.RecalculateDistances | src/services/poi-service.ts:187-199 | re-measure and sort; RecalculateDistancesSpec states the permutation, the recomputed distances and the ascending order |
| PoiService.UpdateDbCacheWritesThrough | src/services/poi-service.ts:166-185 | every written POI's id holds a row stamped with now and the query centre and radius, and ids stay distinct |
| PoiService.UpdateDbCache | src/services/poi-service.ts:166-185 | the write-through; UpdateDbCacheWritesThrough states that each POI's id holds a row stamped with this call's time and query and that ids stay distinct |
| PoiService.SearchNearby | src/services/poi-service.ts:29-88 | the memory tier answers exactly on a memory hit; the cache tiers always answer successfully and never write the table |
| PoiService.MemoryHitRequiresAll | src/services/poi-service.ts:7-8 | memory answers iff an entry exists, is at most 10 minutes old, is within 200 m, covers the radius and every requested type; the entry is kept |
| PoiService.EmptyTypesAlwaysCompatible | src/services/poi-service.ts:127-133 | with no requested types the type test passes vacuously; only distance and radius decide |
| PoiService.ExpiredEntryDiscarded | src/services/poi-service.ts:110-113 | an expired entry never answers and does not survive the call |
| PoiService.PersistedHitInstallsEntry | src/services/poi-service.ts:40-51 | a persisted hit installs a memory entry for the query at now and answers with its POIs re-measured; a failing read never answers |
| PoiService.RemoteFetchWritesThrough | src/services/poi-service.ts:54-87 | a remote answer is the places sorted by distance, becomes the memory entry and is written through; a remote error writes nothing |
| PoiService.GetPlaceDetails | src/services/poi-service.ts:90-99 | when the memory entry holds the id the answer is the first POI in it with that id; otherwise it is the remote lookup's answer |
| PoiService.ClearCache | src/services/poi-service.ts:201-203 | the memory tier is empty afterwards |
| PoiService.ClearedCacheMisses | src/services/poi-service.ts:201-203 | after clearing, the next search never answers from memory |
| PoiStore.InitialState | src/store/poi-store.ts:32-41 | no POIs, not searching, no error, radius 1000, the default filter, nothing selected |
| PoiStore.SetPois | src/store/poi-store.ts:46-51 | the POIs are replaced, searching and error cleared, and nothing else changes |
| PoiStore.SetSearching | src/store/poi-store.ts:53 | only the searching flag changes |
| PoiStore.SetSearchError | src/store/poi-store.ts:55 | the error is set and the searching flag is forced off; nothing else changes |
| PoiStore.SetSearchRadius | src/store/poi-store.ts:57 | only the radius changes |
| PoiStore.SetSuggestedZoom | src/store/poi-store.ts:59 | only the suggested zoom changes |
| PoiStore.MergeFilter | src/store/poi-store.ts:61-64 | each filter field takes the supplied value if there is one, the current value otherwise |
| PoiStore.UpdateFilter | src/store/poi-store.ts:61-64 | the filter becomes the merged filter and is always a new filter object |
| PoiStore.UpdateFilterOverwritesOnlySupplied | src/store/poi-store.ts:61-64 | an empty update keeps the filter content, and a one-field update changes only that field |
| PoiStore.InstallNewFilter | src/services/filter-service.ts:21-27 | installing a filter built elsewhere sets that content as a new, non-default object and changes nothing else |
| PoiStore.ResetFilter | src/store/poi-store.ts:66 | the filter becomes the default filter object and nothing else changes |
| PoiStore.SetLastSearchPosition | src/store/poi-store.ts:68-69 | only the last search position changes, to the given point |
| PoiStore.SetSelectedPoi | src/store/poi-store.ts:71 | only the selection changes |
| PoiStore.ClearPois | src/store/poi-store.ts:73 | POIs emptied, zoom and selection cleared; filter, radius, last position, searching and error kept |
| PoiStore.ActionsKeepValid | src/store/poi-store.ts:43-74 | every store action keeps the filter-object bookkeeping consistent |
| UsePoi.SearchStartAsWrittenIsNotSearching | src/hooks/usePOI.tsx:68-69 | marking searching and then clearing the error leaves the store not searching |
| UsePoi.SearchStartAsWritten | src/hooks/usePOI.tsx:68-69 | the opening as written; SearchStartAsWrittenIsNotSearching states it leaves the store not searching, ReentryDuringSearch what that allows |
| UsePoi.SearchStartCorrected | src/hooks/usePOI.tsx:68-69 | clearing the error first leaves the store searching with no error, nothing else changed |
| UsePoi.OpeningOrderInvisibleAtEnd | src/hooks/usePOI.tsx:68-99 | both opening orders end a successful search in the same state |
| UsePoi.SearchWithoutPosition | src/hooks/usePOI.tsx:58-61 | without a position the error is set and nothing is counted, remembered or replaced |
| UsePoi.SearchWhenExceeded | src/hooks/usePOI.tsx:63-66 | with the day's searches used up the error is set and nothing is counted |
| UsePoi.SearchSucceeds | src/hooks/usePOI.tsx:83-94 | a search past the guards counts exactly one search, remembers the position, sets radius 1000 and zoom 15, and leaves results and filter |
| UsePoi.SearchEndsNotSearching | src/hooks/usePOI.tsx:97-99 | every search ends with the searching flag off |
| UsePoi.SearchNearby | src/hooks/usePOI.tsx:57-117 | the search run to completion; its guards, its single count and its end state are stated by SearchWithoutPosition, SearchWhenExceeded, SearchSucceeds and SearchEndsNotSearching, and OpeningOrderInvisibleAtEnd makes the end state the same for either opening |
| UsePoi.AutoSearchGuards | src/hooks/usePOI.tsx:127-146 | never the first search, never during a search, never within 100 m (inclusive); a search is counted exactly when the guard holds and searches are left |
| UsePoi.AutoSearchEffect | src/hooks/usePOI.tsx:127-146 | the auto-search effect; AutoSearchGuards states when it searches and that it counts a search exactly when its guard holds and searches are left |
| UsePoi.ReentryDuringSearch | src/hooks/usePOI.tsx:127-146 | with the written opening order a position 150 m away during a search starts and counts a second search; with the corrected order it does not |
| UsePoi.GetPoiById | src/hooks/usePOI.tsx:119-124 | a found POI is the first result with the id; nothing is found exactly when no result has the id |
| FilteredPois.FilteredPoisExactly | src/hooks/useFilteredPOIs.ts:13-30 | a POI is kept iff it is in the list and passes category, rating and open-now checks; the result keeps the list's order |
| FilteredPois.FilteredPois | src/hooks/useFilteredPOIs.ts:13-30 | the filter hook; FilteredPoisExactly states a POI is kept iff it passes all three checks, in list order |
| FilteredPois.FilteredPoisChecks | src/hooks/useFilteredPOIs.ts:15-27 | every kept POI is of a selected category, rated at least the minimum when it is positive, and not known closed when open-now is on |
| FilteredPois.FilterEdgeCases | src/hooks/useFilteredPOIs.ts:15-27 | no categories keep nothing, a minimum of 0 or less disables the rating check, unknown opening status passes open-now |
| FilteredPois.FilteredPoisIdempotent | src/hooks/useFilteredPOIs.ts:13-30 | filtering twice equals filtering once |
| FilterService.Loaded | src/services/filter-service.ts:87-102 | the subscriptions start from the stores' current filter object and theme, with nothing pending |
| FilterService.SetPoiStore | src/services/filter-service.ts:87-93 | a POI store write plus the filter subscription; SaveScheduledOnlyOnChange states a save is scheduled exactly when a different filter object is installed |
| FilterService.SetUiStore | src/services/filter-service.ts:96-102 | an interface store write plus the theme subscription; SaveScheduledOnlyOnChange states a save is scheduled exactly when the theme changes |
| FilterService.DebouncedSave | src/services/filter-service.ts:68-76 | any pending save is replaced by a single one due 500 ms after now |
| FilterService.SaveScheduledOnlyOnChange | src/services/filter-service.ts:87-102 | every filter update schedules a save, new results never do, a second reset does not, and a theme write schedules iff the theme changed |
| FilterService.PreferencesOf | src/services/filter-service.ts:45-53 | the record carries the filter's rating, open-now flag, category names in order, and the theme |
| FilterService.FilterOf | src/services/filter-service.ts:21-27 | the filter takes the record's rating, open-now flag and its parsed categories |
| FilterService.SavePreferences | src/services/filter-service.ts:42-60 | a successful save stores the current filter and theme as one record; a failing one changes nothing |
| FilterService.DebounceWaitsForQuiet | src/services/filter-service.ts:68-76 | no save runs before 500 ms of quiet; then the preferences are written as they are |
| FilterService.TimerTick | src/services/filter-service.ts:68-76 | the pending save at a time; DebounceWaitsForQuiet states nothing runs before 500 ms and then the current preferences are written |
| FilterService.InitializeLoadsPreferences | src/services/filter-service.ts:12-40 | a stored record sets the filter and, when present, the theme with dark mode resolved; without a record neither store changes |
| FilterService.InitializeRunsOnce | src/services/filter-service.ts:13-39 | after a successful run further calls change nothing; a failed read changes nothing |
| FilterService.Initialize | src/services/filter-service.ts:12-40 | the one-time load; InitializeLoadsPreferences, InitializeRunsOnce and SaveThenInitializeRoundTrips state what it installs, that it runs once, and that it reads back what a save wrote |
| FilterService.SaveThenInitializeRoundTrips | src/services/filter-service.ts:17-53 | loading the record a save wrote restores the same filter content and theme |
| FilterService.ResetSavesDefault | src/services/filter-service.ts:78-81 | a reset installs the default filter and stores it at once, so loading it back gives the default filter |
| FilterService.Reset | src/services/filter-service.ts:78-81 | reset then an immediate save; ResetSavesDefault states the filter and the stored record become the default |
| UiStore.ResolveDarkMode | src/store/ui-store.ts:51-54 | dark mode is the system preference for the system theme, otherwise whether the theme is dark |
| UiStore.Initial | src/store/ui-store.ts:56-68 | everything closed, no toast, not loading, the system theme with dark mode following the system |
| UiStore.TogglesAreInvolutions | src/store/ui-store.ts:73-99 | each panel toggle flips only its own flag and undoes itself |
| UiStore.ToggleFilterPanel | src/store/ui-store.ts:73-74 | flip the filter panel; TogglesAreInvolutions states only that flag flips and twice is nothing, TogglesAreSetters that it is the setter with the negated flag |
| UiStore.ToggleSettings | src/store/ui-store.ts:78-79 | flip the settings panel; TogglesAreInvolutions and TogglesAreSetters state the same as for the filter panel |
| UiStore.ToggleSearchRadiusVisible | src/store/ui-store.ts:98-99 | flip the radius overlay; TogglesAreInvolutions states only that flag flips and twice is nothing |
| UiStore.SetFilterPanelOpen | src/store/ui-store.ts:76 | the filter panel flag takes the value given and nothing else changes |
| UiStore.SetSettingsOpen | src/store/ui-store.ts:81 | the settings flag takes the value given and nothing else changes |
| UiStore.SetPaywallOpen | src/store/ui-store.ts:83 | the paywall flag takes the value given and nothing else changes |
| UiStore.SetPoiListExpanded | src/store/ui-store.ts:91 | the list flag takes the value given and nothing else changes; in particular no centring is requested |
| UiStore.SetShouldCenterOnUser | src/store/ui-store.ts:96 | the centring request takes the value given and nothing else changes |
| UiStore.TogglesAreSetters | src/store/ui-store.ts:73-96 | each panel toggle equals its setter with the negated flag; toggling the list sets it to the negation and the centring request to its old value; collapsing sets it to false and centring to true |
| UiStore.TogglePoiListExpanded | src/store/ui-store.ts:85-89 | the list flag flips, and centring on the user is requested exactly when collapsing |
| UiStore.CollapsePoiList | src/store/ui-store.ts:93-94 | the list is collapsed and centring requested; nothing else changes |
| UiStore.ToggleCollapsesLikeCollapse | src/store/ui-store.ts:85-94 | toggling an expanded list is the same as collapsing it |
| UiStore.ShowToast | src/store/ui-store.ts:101-102 | the toast shows the message with the given type, info by default; nothing else changes |
| UiStore.HideToast | src/store/ui-store.ts:103 | the toast is gone and nothing else changes |
| UiStore.SetLoading | src/store/ui-store.ts:104-106 | loading flag and message are set, the message empty by default; nothing else changes |
| UiStore.ToastLifecycle | src/store/ui-store.ts:101-106 | showing then hiding a toast is the same as hiding; an untyped toast is info |
| UiStore.SetTheme | src/store/ui-store.ts:108-109 | the theme is set with dark mode resolved for it; nothing else changes |
| UiStore.ToggleTheme | src/store/ui-store.ts:111-117 | the theme changes, dark mode is resolved for the new theme, nothing else changes |
| UiStore.ThemeCycle | src/store/ui-store.ts:111-117 | toggling goes system → light → dark → system, so three toggles restore a resolved state |
| UiStore.NextTheme | src/store/ui-store.ts:114-115 | the next theme; ThemeCycle states the cycle system → light → dark → system |
| LocationStore.UpdatePosition | src/store/location-store.ts:31-32 | the position is set and the error cleared; tracking and permission are kept |
| LocationStore.SetError | src/store/location-store.ts:34 | only the error changes |
| LocationStore.SetTracking | src/store/location-store.ts:36 | only the tracking flag changes |
| LocationStore.SetPermissionState | src/store/location-store.ts:38 | only the permission changes |
| LocationStore.Reset | src/store/location-store.ts:21-26 | no position, no error, not tracking, no permission |
| LocationStore.SettersCommuteAndOverwrite | src/store/location-store.ts:31-38 | independent setters commute, a later error overrides a position's clearing and vice versa, and updates are idempotent |
| LocationAdapter.MapError | src/adapters/web/location-adapter.ts:19-30 | native codes 1, 2, 3 map to denied, unavailable, timeout, anything else to unknown, and the message is kept |
| LocationAdapter.MapPosition | src/adapters/web/location-adapter.ts:35-44 | all six position fields are copied unchanged |
| LocationAdapter.MergeOptions | src/adapters/web/location-adapter.ts:49-67 | each option takes the caller's value when given, otherwise high accuracy, maximum age 5000, timeout 10000 |
| LocationAdapter.MergeOptionsOverridesFieldwise | src/adapters/web/location-adapter.ts:49-67 | full options replace the defaults, empty options equal no options, and a timeout alone changes only the timeout |
| LocationAdapter.StopWatching | src/adapters/web/location-adapter.ts:80-85 | afterwards no watch is active; without a watch nothing changes |
| LocationAdapter.WatchPosition | src/adapters/web/location-adapter.ts:57-78 | the previous watch is cleared, a single new watch is active, and it uses the merged options |
| LocationAdapter.AtMostOneWatch | src/adapters/web/location-adapter.ts:57-85 | watching twice leaves one watch active, and stopping is idempotent |
| LocationAdapter.CheckPermission | src/adapters/web/location-adapter.ts:106-118 | the query's answer when it answers, prompt when the API is absent or throws |
| LocationAdapter.GetCurrentPosition | src/adapters/web/location-adapter.ts:87-104 | a fix gives the mapped position, a failure the mapped error |
| LocationAdapter.RequestPermissionRefusesOnlyDenial | src/adapters/web/location-adapter.ts:120-128 | permission is refused exactly when the 5-second fix fails with a denial |
| LocationAdapter.RequestPermission | src/adapters/web/location-adapter.ts:120-128 | the permission probe; RequestPermissionRefusesOnlyDenial states it refuses exactly on a denial |
| PlacesApi.MapType | src/api/places-api.ts:95-105 | the six category names map to themselves, anything else to restaurant |
| PlacesApi.MapTypeOfName | src/api/places-api.ts:95-105 | every category's name maps back to that category |
| PlacesApi.TransformPlace | src/api/places-api.ts:76-93 | identity, name, location, price, opening, address and photo are copied; distance 0; rating and count default to 0 |
| PlacesApi.SearchNearby | src/api/places-api.ts:42-59 | a non-2xx response is an error with the body's text; a success gives one transformed POI per place, in order |
| PlacesApi.DetailsPathIsOneSegment | src/api/places-api.ts:62 | the encoded id is a single path segment, and for ASCII ids it decodes back to the id |
| PlacesApi.DetailsPath | src/api/places-api.ts:62 | the details path; DetailsPathIsOneSegment states the encoded id is one segment that decodes back for ASCII ids |
| PlacesApi.GetPlaceDetails | src/api/places-api.ts:61-74 | 404 is "Place not found", other failures carry the body's text, success is the transformed place |
| PlacesApi.ErrorTextCases | src/api/places-api.ts:51-54 | the error text is the body's non-empty error, else "API error: status", and "Unknown error" for a non-JSON body |
| PlacesApi.ErrorText | src/api/places-api.ts:51-54 | the error message; ErrorTextCases states the body's error, else "API error: status", else "Unknown error" |
| PlacesApi.IsOk | src/api/places-api.ts:51 | `response.ok` as a 2xx status; the SearchNearby and GetPlaceDetails contracts state that outside it the call fails with ErrorText (404 first for details) |
| Uri.EncodedHasNoDelimiters | src/api/places-api.ts:62 | an encoded component contains no slash, question mark, hash, ampersand, equals sign or comma |
| Uri.DecodeEncodeAscii | src/api/places-api.ts:62 | decoding an encoded ASCII text gives it back |
| Worker.DirectMapNamesCategories | worker/src/index.ts:238-249 | every direct-map value is an app category, and gas station and convenience store come only from their own keys |
| Worker.PrimaryDecision | worker/src/index.ts:338-348 | the primary type decides by the direct map first, then the attraction set, then the food set, and otherwise does not decide |
| Worker.TypesDecision | worker/src/index.ts:351-372 | any attraction type in the list wins; with no attraction or direct type, a food type anywhere gives restaurant; the list decides nothing exactly when it has no known type |
| Worker.MapGoogleTypeToOurType | worker/src/index.ts:236-396 | the classification is always one of the six app categories; when neither the primary type nor the list decides, it is the substring fallback on the lower-cased primary type, else the first listed type, else '' |
| Worker.PrimaryTypeDecides | worker/src/index.ts:338-348 | a known primary type decides regardless of the type list, in direct-map, attraction, food order |
| Worker.AttractionInTypesWins | worker/src/index.ts:351-372 | without a deciding primary type, an attraction type anywhere in the list gives attraction |
| Worker.FirstDirectTypeWins | worker/src/index.ts:360-364 | without attraction types, the first directly mapped type decides |
| Worker.NothingKnownIsAttraction | worker/src/index.ts:375-395 | with no types at all the result is attraction, and an empty primary type counts as absent |
| Worker.FallbackDecision | worker/src/index.ts:374-395 | the substring hints: the result is one of attraction, restaurant, cafe or hotel, and a restaurant, cafe or hotel comes only from a hint for it in the name |
| Worker.ExactOnlyCategories | worker/src/index.ts:236-396 | gas station and convenience store come only from an exact known type, never from the substring fallback |
| Worker.MapPriceLevel | worker/src/index.ts:398-408 | a level is produced exactly for the five known names, and lies in 0..4 |
| Worker.MapPriceLevelBijective | worker/src/index.ts:400-406 | the five names and the levels 0..4 correspond one to one |
| Worker.IncludedTypes | worker/src/index.ts:124 | each included type is the Google type of a requested known category, every requested known category's Google type is included, and unknown names are dropped |
| Worker.IncludedTypesOfCategories | worker/src/index.ts:29-36 | for well-formed categories the included types are their Google types in order |
| Worker.TransformGooglePlace | worker/src/index.ts:162-183 | id kept, name from the display name or a default, missing coordinates 0, rating and count default 0, price mapped, type classified |
| Worker.ClientKeepsProxyCategory | worker/src/index.ts:162-183 | the client maps the category the proxy sends to the same category |
| Worker.SearchRequest | worker/src/index.ts:127-137 | the upstream request carries the included types, 20 results, zh-TW, and the query's centre and radius |
| Worker.Nearby | worker/src/index.ts:109-190 | a body that is not JSON 500, missing or falsy fields 400, no key 500, upstream failure 502, an upstream body that is not JSON (or a throwing fetch) 500 "Internal server error"; the transformed places exactly when the upstream body parses |
| Worker.ValidationBeforeKey | worker/src/index.ts:114-121 | field validation happens before the key check, latitude 0 counts as missing, and an empty type list is rejected |
| Worker.Details | worker/src/index.ts:193-234 | no key 500, an upstream failure 404 "Place not found", an upstream body that is not JSON (or a throwing fetch) 500 "Internal server error"; the transformed place exactly when the upstream place parses |
| Worker.CorsDecision | worker/src/index.ts:73-82 | headers are set exactly when the origin or "*" is listed, echoing the origin |
| Worker.CorsMiddleware | worker/src/index.ts:72-94 | OPTIONS is answered at once with 204 and the same headers as any other method |
| Worker.CorsAllowList | worker/src/index.ts:73-78 | a single entry admits exactly itself (or everything if "*"), the first of two entries is admitted, and no list admits nothing |
| Navigation.WebUrlQuery | src/adapters/web/navigation-adapter.ts:19-30 | splitting the web link on & gives exactly its parameters |
| Navigation.WebUrlParameters | src/adapters/web/navigation-adapter.ts:19-30 | the link always names destination and travel mode, and names a place id exactly when the destination has a truthy one |
| Navigation.WebUrl | src/adapters/web/navigation-adapter.ts:19-30 | the web link; WebUrlQuery and WebUrlParameters state it splits into destination, travel mode and, when truthy, place id |
| Navigation.AndroidModeLetterInjective | src/adapters/web/navigation-adapter.ts:43-48 | the four modes get four different letters from d, w, b, r |
| Navigation.AppUrlByPlatform | src/adapters/web/navigation-adapter.ts:32-53 | iOS gets the comgooglemaps scheme, Android google.navigation with the mode letter, others the web link |
| Navigation.AppUrl | src/adapters/web/navigation-adapter.ts:32-53 | the app link; AppUrlByPlatform states the iOS, Android and fallback branches |
| Navigation.OpenNavigation | src/adapters/web/navigation-adapter.ts:55-81 | on success the web link opens, with the app link tried first exactly on iOS or Android; a failure reports false |
| Navigation.IsNavigationAppAvailable | src/adapters/web/navigation-adapter.ts:83-90 | Apple Maps only on iOS; Google and Waze always |
| Navigation.IsIos | src/adapters/web/navigation-adapter.ts:11-13 | an agent naming iPad, iPhone or iPod; AppUrlByPlatform states it selects the comgooglemaps link first, IsNavigationAppAvailable that only it offers Apple Maps |
| Navigation.IsAndroid | src/adapters/web/navigation-adapter.ts:15-17 | an agent naming Android; AppUrlByPlatform states that, when not iOS, it selects the google.navigation link with the mode letter |
| Navigation.GetNavigationUrl | src/adapters/web/navigation-adapter.ts:92-97 | the web link for the mode, driving by default |
| Navigation.SharedLinkIsOpenedLink | src/adapters/web/navigation-adapter.ts:55-97 | the link shared is the link opened |
| Simulator.Initial | src/test/location-simulator.ts:34-42 | the sample route of 20 points, index 0, no interval, 2000 ms looping at normal speed, with the timer bookkeeping valid |
| Simulator.SetRoute | src/test/location-simulator.ts:44-47 | the route is replaced and the index goes back to 0; nothing else changes |
| Simulator.SetOptions | src/test/location-simulator.ts:49-51 | each option takes the supplied value or keeps its own; nothing else changes |
| Simulator.Period | src/test/location-simulator.ts:70 | the period times the speed multiplier is the interval, and a zero multiplier counts as 1 |
| Simulator.PreviousIndex | src/test/location-simulator.ts:114 | the previous index is one back, but never below 0 |
| Simulator.Sample | src/test/location-simulator.ts:112-127 | an index on the route gives its point with speed 15 and accuracy 10; any other index is a TypeError |
| Simulator.Emit | src/test/location-simulator.ts:112-136 | throws exactly when the index is off the route; otherwise the store holds the route point at the index with no error, tracking unchanged, and nothing but the store changes |
| Simulator.Stop | src/test/location-simulator.ts:89-96 | the interval is cleared and unregistered; nothing else changes |
| Simulator.Start | src/test/location-simulator.ts:53-87 | the store is marked granted and tracking; it throws exactly when the index is off the route, else one new interval runs |
| Simulator.TickEmitsWithinRoute | src/test/location-simulator.ts:71-84 | from a point of the route a tick emits the next point, wraps to the first when looping, or stops |
| Simulator.Tick | src/test/location-simulator.ts:71-84 | the tick as written; by TickEmitsWithinRoute it emits the next point, wraps when looping, or stops, and by FinishedRunCannotRestart stopping leaves the index one past the route |
| Simulator.LoopingStaysOnRoute | src/test/location-simulator.ts:71-84 | while looping, n ticks land on index (i + n) mod length and always on the route |
| Simulator.Reset | src/test/location-simulator.ts:98-102 | stopped, at index 0, route and store kept |
| Simulator.JumpToIndex | src/test/location-simulator.ts:104-110 | an index on the route moves there and emits its point; any other index changes nothing |
| Simulator.GetStatus | src/test/location-simulator.ts:151-158 | running iff an interval is set; progress is (index + 1) / length · 100, so it lies in (0, 100] on the route and exceeds 100 past its end |
| Simulator.AtMostOneInterval | src/test/location-simulator.ts:53-102 | every operation keeps at most one registered interval, and stop is idempotent |
| Simulator.HeadingReference | src/test/location-simulator.ts:114-118 | the heading is measured from the previous point, or from the point itself at index 0 |
| Simulator.FinishedRunCannotRestart | src/test/location-simulator.ts:74-79 | a non-looping run ends one past the last point, reports 105% and cannot be started again |
| Simulator.TickCorrectedStaysOnRoute | src/test/location-simulator.ts:74-79 | stopping on the last point keeps the index on the route, reports 100%, and allows a restart |
| Simulator.TickCorrected | src/test/location-simulator.ts:74-79 | the tick with the end corrected to stop on the last point; TickCorrectedStaysOnRoute shows the index stays on the route and a restart succeeds |
| MockPois.MockIdsDistinct | src/mocks/pois.ts:6-123 | the ten mock POIs have pairwise distinct ids |
| MockPois.FiltersExactly | src/mocks/pois.ts:140-153 | the category filter keeps exactly the POIs of a listed type, the rating filter those rated at least the minimum (inclusive), both in order |
| MockPois.AllCategoriesReturnsAll | src/mocks/pois.ts:140-153 | filtering by all six categories, or by a minimum no POI is below, returns the list unchanged |
| MockPois.CategoryFilterMatchesHook | src/mocks/pois.ts:140-144 | the mock category filter agrees with the app's filter with rating and open-now disabled |

## Left out

- Trigonometry: the haversine, equirectangular and bearing bodies (`src/core/utils/geo.ts`) and the simulator's heading are abstract functions. Distance functions are not assumed symmetric or zero on equal points.
- Network I/O, IndexedDB (Dexie), geolocation, permissions, `window.open` and the iframe are replaced by the values they produce or by fault flags.
- Photo URL building in the worker is not modelled: `photoUrl` is always absent there. Opening hours, thumbnail and phone fields are not modelled either.
- The worker's health-check route `/` is not modelled.
- Console logging is not modelled.
- The clock is one `now` per call. Module-load constants (`initialState.lastReset`, `DEFAULT_QUOTA.lastReset`) are a `loadDay` parameter. So `QuotaStore.Reset` restores the load-time date, not today.
- `QuotaStore.GetDistancePercentage`: the only NaN modelled is the 0/0 case. Other floating-point rounding is ignored.
- The usePOI `catch` branch cannot be reached because nothing in the `try` throws, so it is omitted.
- Progressive radius expansion exists only as constants and a TODO. There is no empty-category short-circuit in the cache check. Neither appears in the model because neither is in the code.
- `UseLocation.AutoStartCleanup` takes the tracking flag captured when the effect ran as a parameter. React's effect scheduling and the interleaving of overlapping searches are not modelled.
- Geolocation watch and interval ids are abstract handles.
- The 500 ms wait before the iframe is removed is not modelled.
- `Navigation.OpenNavigation`: a DOM failure is the `domFails` flag and yields `false` with no effects.
- Number-to-text conversion in links is an abstract `render`. The same applies to `toFixed` in `formatDistance`/`formatRatingCount`/`formatRating`: the model states the number shown and its unit, not its digits. `formatRating` has no further logic and is not modelled separately.
- `Format.FormatDistanceUnit`: the kilometer value is stated before rounding to one decimal.
- `Simulator.GetStatus`: progress is the number before `toFixed(1)` and the `%` suffix.
- `PoiModel.ParseCategories`: stored category names that are not app categories are dropped, while every known name is kept. The source keeps them as inert strings through a type cast, and they match no POI either way.
- Property lookups that would reach JavaScript prototype keys are treated as absent: `directMap['constructor']`, `levelMap`, `typeToGoogleType` and the client's `typeMap`.
- `Strings.ToLower` lower-cases ASCII letters only.
- `Uri.DecodeEncodeAscii`: the round trip is proved for ASCII text only. Encoding itself covers all of Unicode through UTF-8.
- `PoiService.RecalculateDistancesSpec`: sort stability of `recalculateDistances` is not stated. Only the ascending order and the permutation are.
- `PoiService.CheckDbCache`: the persisted read returns rows in table order. The order of Dexie's `cachedAt` index is not modelled.
- `StorageAdapter.GetCachedPoisExactly`: the read is stated in table order. Dexie returns rows in `cachedAt` index order (src/adapters/web/storage-adapter.ts:28), which is not modelled.
- `PoiService.SearchNearby`: a persisted hit keeps only the POI fields of each row, not the row's extra cache fields.
- Option objects with an explicit `undefined` field are not modelled: an absent field is the only way to fall back to a default.
- CORS origins are not trimmed after splitting on commas, matching the code.
- `DistanceService.SyncToStoreAgrees`: a record that differs only in its limits is ignored, as in the code, even though the ledger then keeps its old limits.

## Findings

| source | as written | input that shows it | evidently intended | confidence | as-written member | corrected member |
|---|---|---|---|---|---|---|
| src/hooks/usePOI.tsx:68-69 | `setSearching(true)` is followed by `setSearchError(null)`, and `setSearchError` also forces `isSearching` to false (src/store/poi-store.ts:55). The store therefore says "not searching" for the whole search. | Any search past the guards. A new position more than 100 m from the last search arrives during the 500 ms wait, and the auto-search effect starts and counts a second search. | The store shows "searching" until the `finally` clears it, so the effect's `isSearching` guard holds | high, not executed | UsePoi.SearchStartAsWrittenIsNotSearching, UsePoi.ReentryDuringSearch | UsePoi.SearchStartCorrected |
| src/test/location-simulator.ts:74-79 | On a route without looping, the last tick stops the interval but leaves `currentIndex` equal to `route.length` | The sample route with loop off, ticked at index 19: the index becomes 20, status shows 105.0%, and `start()` reads `route[20]` and throws, after marking the store as tracking | Stop on the last point, so progress ends at 100% and the simulator can be started again | high, not executed | Simulator.Tick, Simulator.FinishedRunCannotRestart | Simulator.TickCorrected, Simulator.TickCorrectedStaysOnRoute |
