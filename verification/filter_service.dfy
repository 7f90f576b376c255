/** Persistence of the filter and theme preferences
    (src/services/filter-service.ts): the one-time load into the POI and
    interface stores, the full save, the reset, and the 500 ms debounce
    driven by two subscriptions — one watching the filter object, one
    watching the theme.

    The application state holds both stores, the stored preferences row, the
    service's own fields, and what each subscription last saw. Storage
    faults and the system colour-scheme preference are parameters. */
module FilterService {
  import opened Optional
  import opened PoiModel
  import opened FilterModel
  import opened Interfaces
  import PoiStore
  import UiStore

  /** The quiet period before a scheduled save runs, in milliseconds. */
  const SaveDelayMs: int := 500

  datatype Service = Service(initialized: bool, saveDueAt: Option<int>)

  datatype App = App(
    poi: PoiStore.State,
    ui: UiStore.State,
    row: Option<UserPreferences>,
    service: Service,
    previousFilterRef: nat,
    previousTheme: ThemeMode)

  /** The subscriptions start from the stores' state when the module loads. */
  function Loaded(poi: PoiStore.State, ui: UiStore.State, row: Option<UserPreferences>): (sys: App)
    ensures sys.previousFilterRef == poi.filterRef && sys.previousTheme == ui.theme
    ensures !sys.service.initialized && sys.service.saveDueAt.None?
  {
    App(poi, ui, row, Service(false, None), poi.filterRef, ui.theme)
  }

  /** `debouncedSave` at time `now`: any pending save is replaced. */
  function DebouncedSave(svc: Service, now: int): (r: Service)
    ensures r.saveDueAt == Some(now + SaveDelayMs) && r.initialized == svc.initialized
  {
    svc.(saveDueAt := Some(now + SaveDelayMs))
  }

  /** A write to the POI store followed by the filter subscription: a save is
      scheduled when the filter object is a different one. */
  function SetPoiStore(sys: App, next: PoiStore.State, now: int): App {
    if next.filterRef != sys.previousFilterRef
    then sys.(poi := next, previousFilterRef := next.filterRef, service := DebouncedSave(sys.service, now))
    else sys.(poi := next)
  }

  /** A write to the interface store followed by the theme subscription. */
  function SetUiStore(sys: App, next: UiStore.State, now: int): App {
    if next.theme != sys.previousTheme
    then sys.(ui := next, previousTheme := next.theme, service := DebouncedSave(sys.service, now))
    else sys.(ui := next)
  }

  /** Each subscription keeps the value it last saw equal to the store's. */
  predicate InSync(sys: App) {
    sys.previousFilterRef == sys.poi.filterRef && sys.previousTheme == sys.ui.theme
  }

  /** A save is scheduled exactly when a write installs a different filter
      object or a different theme: every `updateFilter` schedules one, even
      with the same content; new results never do; resetting to the default
      object twice schedules at most once. */
  lemma SaveScheduledOnlyOnChange(sys: App, u: PoiStore.FilterUpdate, pois: seq<Poi>, theme: ThemeMode, systemDark: bool, now: int)
    requires InSync(sys) && PoiStore.Valid(sys.poi)
    ensures SetPoiStore(sys, PoiStore.UpdateFilter(sys.poi, u), now).service.saveDueAt == Some(now + SaveDelayMs)
    ensures SetPoiStore(sys, PoiStore.SetPois(sys.poi, pois), now).service == sys.service
    ensures var once := SetPoiStore(sys, PoiStore.ResetFilter(sys.poi), now);
      SetPoiStore(once, PoiStore.ResetFilter(once.poi), now + 1).service == once.service
    ensures SetUiStore(sys, UiStore.SetTheme(sys.ui, theme, systemDark), now).service.saveDueAt.Some?
      <==> theme != sys.ui.theme || sys.service.saveDueAt.Some?
    ensures InSync(SetPoiStore(sys, PoiStore.UpdateFilter(sys.poi, u), now))
  {
  }

  /** The record `savePreferences` builds. */
  function PreferencesOf(f: Filter, theme: ThemeMode): (p: UserPreferences)
    ensures p.minRating == f.minRating && p.openNowOnly == f.openNow && p.theme == Some(theme)
    ensures |p.enabledCategories| == |f.categories|
    ensures forall i :: 0 <= i < |f.categories| ==> p.enabledCategories[i] == TypeName(f.categories[i])
  {
    UserPreferences(f.minRating, CategoryNames(f.categories), f.openNow, Some(theme))
  }

  /** The filter `initialize` builds from a record. */
  function FilterOf(p: UserPreferences): (f: Filter)
    ensures f.minRating == p.minRating && f.openNow == p.openNowOnly
    ensures f.categories == ParseCategories(p.enabledCategories)
  {
    Filter(ParseCategories(p.enabledCategories), p.minRating, p.openNowOnly)
  }

  /** `savePreferences`: the current filter and theme, written whole. */
  function SavePreferences(sys: App, writeFails: bool): (r: App)
    ensures !writeFails ==> r.row == Some(PreferencesOf(sys.poi.filter, sys.ui.theme))
    ensures writeFails ==> r == sys
    ensures r.poi == sys.poi && r.ui == sys.ui && r.service == sys.service
  {
    if writeFails then sys else sys.(row := Some(PreferencesOf(sys.poi.filter, sys.ui.theme)))
  }

  /** The pending timer at time `now`. */
  function TimerTick(sys: App, now: int, writeFails: bool): App {
    match sys.service.saveDueAt
    case Some(due) =>
      if now >= due then
        var saved := SavePreferences(sys, writeFails);
        saved.(service := saved.service.(saveDueAt := None))
      else sys
    case None => sys
  }

  /** A save never runs before 500 ms after the latest scheduling, and then
      writes the preferences as they are. */
  lemma DebounceWaitsForQuiet(sys: App, scheduledAt: int, now: int, writeFails: bool)
    requires sys.service.saveDueAt == Some(scheduledAt + SaveDelayMs)
    ensures now < scheduledAt + SaveDelayMs ==> TimerTick(sys, now, writeFails) == sys
    ensures now >= scheduledAt + SaveDelayMs ==>
      TimerTick(sys, now, writeFails).service.saveDueAt.None?
      && (!writeFails ==> TimerTick(sys, now, writeFails).row == Some(PreferencesOf(sys.poi.filter, sys.ui.theme)))
  {
  }

  /** `initialize`: load the stored record into the filter and, when it has
      one, the theme. */
  function Initialize(sys: App, readFails: bool, systemDark: bool, now: int): App
    requires PoiStore.Valid(sys.poi)
  {
    if sys.service.initialized || readFails then sys
    else
      match sys.row
      case None => sys.(service := sys.service.(initialized := true))
      case Some(p) =>
        var withFilter := SetPoiStore(sys, PoiStore.InstallNewFilter(sys.poi, FilterOf(p)), now);
        var withTheme :=
          if p.theme.Some? then SetUiStore(withFilter, UiStore.SetTheme(withFilter.ui, p.theme.value, systemDark), now)
          else withFilter;
        withTheme.(service := withTheme.service.(initialized := true))
  }

  /** A stored record sets the filter to its categories, rating and open-now
      flag, and the theme when it has one; without a stored record neither
      store changes. */
  lemma InitializeLoadsPreferences(sys: App, readFails: bool, systemDark: bool, now: int)
    requires PoiStore.Valid(sys.poi) && !sys.service.initialized && !readFails
    ensures var r := Initialize(sys, readFails, systemDark, now);
      && r.service.initialized
      && (sys.row.Some? ==> r.poi.filter == FilterOf(sys.row.value))
      && (sys.row.Some? && sys.row.value.theme.Some? ==>
            r.ui.theme == sys.row.value.theme.value && UiStore.DarkModeResolved(r.ui, systemDark))
      && (sys.row.Some? && sys.row.value.theme.None? ==> r.ui == sys.ui)
      && (sys.row.None? ==> r.poi == sys.poi && r.ui == sys.ui)
  {
  }

  /** Initialization happens once: after a success further calls change
      nothing, and a failed read leaves everything as it was. */
  lemma InitializeRunsOnce(sys: App, readFails: bool, systemDark: bool, now: int)
    requires PoiStore.Valid(sys.poi)
    ensures sys.service.initialized ==> Initialize(sys, readFails, systemDark, now) == sys
    ensures readFails ==> Initialize(sys, readFails, systemDark, now) == sys
    ensures !readFails ==> Initialize(sys, readFails, systemDark, now).service.initialized
  {
  }

  /** Saving and loading again restores the filter and the theme: the
      record `savePreferences` writes is read back by `initialize` into the
      same filter content and the same theme. */
  lemma SaveThenInitializeRoundTrips(sys: App, later: App, systemDark: bool, now: int)
    requires PoiStore.Valid(later.poi) && !later.service.initialized
    requires later.row == SavePreferences(sys, false).row
    ensures var r := Initialize(later, false, systemDark, now);
      r.poi.filter == sys.poi.filter && r.ui.theme == sys.ui.theme
  {
    ParseCategoryNames(sys.poi.filter.categories);
  }

  /** `reset`: install the default filter object, then save at once (the
      subscription may also schedule a save). */
  function Reset(sys: App, now: int, writeFails: bool): App
    requires PoiStore.Valid(sys.poi)
  {
    SavePreferences(SetPoiStore(sys, PoiStore.ResetFilter(sys.poi), now), writeFails)
  }

  /** After a reset the filter is the default one and, unless the write
      fails, so is the stored filter part of the record. */
  lemma ResetSavesDefault(sys: App, now: int, writeFails: bool)
    requires PoiStore.Valid(sys.poi)
    ensures Reset(sys, now, writeFails).poi.filter == DefaultFilter
    ensures !writeFails ==> Reset(sys, now, writeFails).row == Some(PreferencesOf(DefaultFilter, sys.ui.theme))
    ensures !writeFails ==> FilterOf(Reset(sys, now, writeFails).row.value) == DefaultFilter
  {
    ParseCategoryNames(DefaultFilter.categories);
  }
}
