/** Persistence of the quota ledger (src/services/distance-service.ts): the
    one-time startup reload with its day rollover, the "sync only on
    difference" rule, the full-record save, and the 2-second debounce driven
    by the ledger's change subscription.

    The system state pairs the in-memory ledger with the single persisted
    quota row and the service's own two fields. The debounce timer is one
    optional deadline: scheduling replaces it, so at most one save is ever
    pending. Storage faults are parameters. */
module DistanceService {
  import opened Optional
  import opened Interfaces
  import QuotaStore

  /** The quiet period before a scheduled save runs, in milliseconds. */
  const SaveDelayMs: int := 2000

  /** `DEFAULT_QUOTA`; like the ledger's initial state, its date is the day
      the module was loaded. */
  function DefaultQuota(loadDay: string): UsageQuota {
    UsageQuota(0.0, 5000.0, 0, 100, loadDay)
  }

  /** The service object: `initialized` and the pending `saveTimeout`, held as
      the time it will fire. */
  datatype Service = Service(initialized: bool, saveDueAt: Option<int>)

  /** The ledger, the persisted quota row, and the service. */
  datatype System = System(store: UsageQuota, row: Option<UsageQuota>, service: Service)

  /** Which storage calls fail (a failure is thrown, logged and swallowed). */
  datatype Faults = Faults(readFails: bool, writeFails: bool)

  /** `debouncedSave` at time `now`: cancel any pending save, schedule a new one. */
  function DebouncedSave(svc: Service, now: int): (r: Service)
    ensures r.saveDueAt == Some(now + SaveDelayMs)
    ensures r.initialized == svc.initialized
  {
    svc.(saveDueAt := Some(now + SaveDelayMs))
  }

  /** The ledger subscription fires on this change. */
  predicate CountersChanged(prev: UsageQuota, next: UsageQuota) {
    prev.distanceTraveled != next.distanceTraveled || prev.searchCount != next.searchCount
  }

  /** Any write to the ledger, followed by the subscription: a save is
      scheduled only when the distance or the search count changed. */
  function SetStore(sys: System, next: UsageQuota, now: int): System {
    var svc := if CountersChanged(sys.store, next) then DebouncedSave(sys.service, now) else sys.service;
    sys.(store := next, service := svc)
  }

  /** The subscription schedules a save exactly when a counter changed, and
      leaves an existing deadline alone otherwise. */
  lemma SetStoreSchedulesOnCounterChange(sys: System, next: UsageQuota, now: int)
    ensures SetStore(sys, next, now).store == next
    ensures CountersChanged(sys.store, next) ==> SetStore(sys, next, now).service.saveDueAt == Some(now + SaveDelayMs)
    ensures !CountersChanged(sys.store, next) ==> SetStore(sys, next, now).service == sys.service
  {
  }

  /** Adding distance schedules a save whenever it moves the counter, and so
      does every counted search. */
  lemma LedgerActionsScheduleSave(sys: System, meters: real, now: int)
    ensures meters != 0.0 ==>
      SetStore(sys, QuotaStore.AddDistance(sys.store, meters), now).service.saveDueAt == Some(now + SaveDelayMs)
    ensures SetStore(sys, QuotaStore.IncrementSearchCount(sys.store), now).service.saveDueAt == Some(now + SaveDelayMs)
  {
  }

  /** `syncToStore`: the ledger takes the whole record only if the distance,
      the count or the date differ; a record differing only in limits is
      ignored. */
  function SyncToStore(sys: System, quota: UsageQuota, now: int): System {
    if sys.store.distanceTraveled != quota.distanceTraveled
      || sys.store.searchCount != quota.searchCount
      || sys.store.lastReset != quota.lastReset
    then SetStore(sys, quota, now)
    else sys
  }

  /** After a sync the ledger agrees with the record on distance, count and
      date; it equals the record whenever it differed on one of those. */
  lemma SyncToStoreAgrees(sys: System, quota: UsageQuota, now: int)
    ensures var s := SyncToStore(sys, quota, now).store;
      s.distanceTraveled == quota.distanceTraveled && s.searchCount == quota.searchCount && s.lastReset == quota.lastReset
    ensures (sys.store.distanceTraveled != quota.distanceTraveled || sys.store.searchCount != quota.searchCount
             || sys.store.lastReset != quota.lastReset) ==> SyncToStore(sys, quota, now).store == quota
    ensures sys.store.(distanceLimit := quota.distanceLimit, searchLimit := quota.searchLimit) == quota ==>
      SyncToStore(sys, quota, now) == sys
  {
  }

  /** `saveQuota`: upsert the full five-field record copied from the ledger. */
  function SaveQuota(sys: System, faults: Faults): (r: System)
    ensures !faults.writeFails ==> r.row == Some(sys.store)
    ensures faults.writeFails ==> r == sys
    ensures r.store == sys.store && r.service == sys.service
  {
    if faults.writeFails then sys else sys.(row := Some(sys.store))
  }

  /** The pending timer at time `now`: when its deadline has come it saves and
      clears itself; otherwise nothing happens. */
  function TimerTick(sys: System, now: int, faults: Faults): System {
    match sys.service.saveDueAt
    case Some(due) =>
      if now >= due then
        var saved := SaveQuota(sys, faults);
        saved.(service := saved.service.(saveDueAt := None))
      else sys
    case None => sys
  }

  /** A save never runs before the quiet period after the latest scheduling
      has passed, and when it runs it writes the ledger as it is then. */
  lemma DebounceWaitsForQuiet(sys: System, scheduledAt: int, now: int, faults: Faults)
    requires sys.service.saveDueAt == Some(scheduledAt + SaveDelayMs)
    ensures now < scheduledAt + SaveDelayMs ==> TimerTick(sys, now, faults) == sys
    ensures now >= scheduledAt + SaveDelayMs ==>
      TimerTick(sys, now, faults).service.saveDueAt.None?
      && (!faults.writeFails ==> TimerTick(sys, now, faults).row == Some(sys.store))
  {
  }

  /** `initialize`, with `today` the current date string and `loadDay` the
      date the module was loaded on. */
  function Initialize(sys: System, today: string, loadDay: string, now: int, faults: Faults): System {
    if sys.service.initialized || faults.readFails then sys
    else
      match sys.row
      case Some(quota) =>
        if quota.lastReset != today then
          if faults.writeFails then sys
          else
            var resetQuota := quota.(distanceTraveled := 0.0, searchCount := 0, lastReset := today);
            var synced := SyncToStore(sys.(row := Some(resetQuota)), resetQuota, now);
            synced.(service := synced.service.(initialized := true))
        else
          var synced := SyncToStore(sys, quota, now);
          synced.(service := synced.service.(initialized := true))
      case None =>
        if faults.writeFails then sys
        else sys.(row := Some(DefaultQuota(loadDay)), service := sys.service.(initialized := true))
  }

  /** A stored quota from an earlier day is persisted with both counters at
      zero, today's date and its own limits, and the ledger is brought to
      those counters and that date. */
  lemma InitializeRollsOverStaleQuota(sys: System, today: string, loadDay: string, now: int, faults: Faults)
    requires !sys.service.initialized && !faults.readFails && !faults.writeFails
    requires sys.row.Some? && sys.row.value.lastReset != today
    ensures var r := Initialize(sys, today, loadDay, now, faults);
      var q := sys.row.value;
      && r.row == Some(UsageQuota(0.0, q.distanceLimit, 0, q.searchLimit, today))
      && r.store.distanceTraveled == 0.0 && r.store.searchCount == 0 && r.store.lastReset == today
      && r.service.initialized
  {
    var q := sys.row.value;
    SyncToStoreAgrees(sys.(row := Some(q.(distanceTraveled := 0.0, searchCount := 0, lastReset := today))),
                      q.(distanceTraveled := 0.0, searchCount := 0, lastReset := today), now);
  }

  /** A stored quota from today is synced to the ledger unchanged and left
      unchanged in storage. */
  lemma InitializeKeepsSameDayQuota(sys: System, today: string, loadDay: string, now: int, faults: Faults)
    requires !sys.service.initialized && !faults.readFails
    requires sys.row.Some? && sys.row.value.lastReset == today
    ensures var r := Initialize(sys, today, loadDay, now, faults);
      r.row == sys.row && r.service.initialized
      && r.store.distanceTraveled == sys.row.value.distanceTraveled
      && r.store.searchCount == sys.row.value.searchCount
      && r.store.lastReset == today
  {
    SyncToStoreAgrees(sys, sys.row.value, now);
  }

  /** With nothing stored, the default quota is written and the ledger is not
      touched. */
  lemma InitializeWritesDefault(sys: System, today: string, loadDay: string, now: int, faults: Faults)
    requires !sys.service.initialized && !faults.readFails && !faults.writeFails && sys.row.None?
    ensures var r := Initialize(sys, today, loadDay, now, faults);
      r.row == Some(UsageQuota(0.0, 5000.0, 0, 100, loadDay)) && r.store == sys.store && r.service.initialized
  {
  }

  /** Initialization happens once: after a success, further calls change
      nothing; a failed storage call leaves the whole system as it was, so the
      next call tries again. */
  lemma InitializeRunsOnce(sys: System, today: string, loadDay: string, now: int, faults: Faults)
    ensures sys.service.initialized ==> Initialize(sys, today, loadDay, now, faults) == sys
    ensures faults.readFails ==> Initialize(sys, today, loadDay, now, faults) == sys
    ensures faults.writeFails && !(sys.row.Some? && sys.row.value.lastReset == today) ==>
      Initialize(sys, today, loadDay, now, faults) == sys
    ensures !faults.readFails && !faults.writeFails ==> Initialize(sys, today, loadDay, now, faults).service.initialized
  {
  }
}
