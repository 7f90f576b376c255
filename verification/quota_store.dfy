/** The in-memory daily quota ledger (src/store/quota-store.ts): two counters,
    their limits, and the calendar day they were last reset on. Every action is
    a function from the ledger before to the ledger after; `today` is the
    date string of the moment the action runs. */
module QuotaStore {
  import opened Interfaces

  /** `DEFAULT_DISTANCE_LIMIT`, in meters. */
  const DefaultDistanceLimit: real := 5000.0
  /** `DEFAULT_SEARCH_LIMIT`, searches per day. */
  const DefaultSearchLimit: int := 100

  /** `initialState`. Its `lastReset` is computed once, when the module is
      loaded, so it is the date of `loadDay`. */
  function Initial(loadDay: string): UsageQuota {
    UsageQuota(0.0, DefaultDistanceLimit, 0, DefaultSearchLimit, loadDay)
  }

  /** `addDistance`. */
  function AddDistance(q: UsageQuota, meters: real): (r: UsageQuota)
    ensures r.distanceTraveled - q.distanceTraveled == meters
    ensures r.(distanceTraveled := q.distanceTraveled) == q
  {
    q.(distanceTraveled := q.distanceTraveled + meters)
  }

  /** `incrementSearchCount`. */
  function IncrementSearchCount(q: UsageQuota): (r: UsageQuota)
    ensures r.searchCount == q.searchCount + 1
    ensures r.(searchCount := q.searchCount) == q
  {
    q.(searchCount := q.searchCount + 1)
  }

  /** `checkAndResetIfNeeded`: a new calendar day zeroes both counters. */
  function CheckAndResetIfNeeded(q: UsageQuota, today: string): UsageQuota {
    if q.lastReset != today then q.(distanceTraveled := 0.0, searchCount := 0, lastReset := today) else q
  }

  /** `isDistanceExceeded` (inclusive). */
  predicate IsDistanceExceeded(q: UsageQuota) {
    q.distanceTraveled >= q.distanceLimit
  }

  /** `isSearchExceeded` (inclusive). */
  predicate IsSearchExceeded(q: UsageQuota) {
    q.searchCount >= q.searchLimit
  }

  /** The number JavaScript computes for `Math.min(x / y * 100, 100)`; a zero
      limit gives `NaN` for `0 / 0` and an infinity otherwise. */
  datatype Percentage = Percent(value: real) | NotANumber | MinusInfinity

  /** `getDistancePercentage`. */
  function GetDistancePercentage(q: UsageQuota): (r: Percentage)
    ensures q.distanceLimit > 0.0 ==> r.Percent? && r.value <= 100.0
    ensures q.distanceLimit > 0.0 && q.distanceTraveled >= 0.0 ==> 0.0 <= r.value
    ensures q.distanceLimit > 0.0 && q.distanceTraveled < q.distanceLimit ==>
      r.value * q.distanceLimit == q.distanceTraveled * 100.0
  {
    if q.distanceLimit == 0.0 then
      if q.distanceTraveled > 0.0 then Percent(100.0)
      else if q.distanceTraveled == 0.0 then NotANumber
      else MinusInfinity
    else
      var p := q.distanceTraveled / q.distanceLimit * 100.0;
      Percent(if p < 100.0 then p else 100.0)
  }

  /** `reset`: back to `initialState`, including its load-time `lastReset`. */
  function Reset(q: UsageQuota, loadDay: string): UsageQuota {
    Initial(loadDay)
  }

  /** Reset gives zero counters, the default limits, and the load-time date. */
  lemma ResetRestoresDefaults(q: UsageQuota, loadDay: string)
    ensures Reset(q, loadDay) == UsageQuota(0.0, 5000.0, 0, 100, loadDay)
    ensures !IsDistanceExceeded(Reset(q, loadDay)) && !IsSearchExceeded(Reset(q, loadDay))
  {
  }

  /** Distance only accumulates: for non-negative meters the counter never
      goes down, and two additions are one addition of the sum. */
  lemma AddDistanceAccumulates(q: UsageQuota, a: real, b: real)
    ensures a >= 0.0 ==> AddDistance(q, a).distanceTraveled >= q.distanceTraveled
    ensures AddDistance(AddDistance(q, a), b) == AddDistance(q, a + b)
  {
  }

  /** With limit 5000 and 4999 m traveled, two more meters exceed the limit. */
  lemma DistanceLimitExample(q: UsageQuota)
    requires q.distanceLimit == 5000.0 && q.distanceTraveled == 4999.0
    ensures !IsDistanceExceeded(q)
    ensures IsDistanceExceeded(AddDistance(q, 2.0))
  {
  }

  /** Once a limit is reached it stays reached under counting (with
      non-negative distances) until a reset. */
  lemma ExceededIsSticky(q: UsageQuota, meters: real)
    requires meters >= 0.0
    ensures IsSearchExceeded(q) ==> IsSearchExceeded(AddDistance(q, meters)) && IsSearchExceeded(IncrementSearchCount(q))
    ensures IsDistanceExceeded(q) ==> IsDistanceExceeded(AddDistance(q, meters)) && IsDistanceExceeded(IncrementSearchCount(q))
  {
  }

  /** On a new day both counters go to zero, the date becomes today and the
      limits stay; on the same day nothing changes; either way a second check
      on the same day changes nothing more. */
  lemma CheckAndResetBehaviour(q: UsageQuota, today: string)
    ensures q.lastReset != today ==>
      var r := CheckAndResetIfNeeded(q, today);
      r.distanceTraveled == 0.0 && r.searchCount == 0 && r.lastReset == today
      && r.distanceLimit == q.distanceLimit && r.searchLimit == q.searchLimit
    ensures q.lastReset == today ==> CheckAndResetIfNeeded(q, today) == q
    ensures CheckAndResetIfNeeded(CheckAndResetIfNeeded(q, today), today) == CheckAndResetIfNeeded(q, today)
  {
  }

  /** For a positive limit the percentage is 100 exactly when the distance
      limit is exceeded. */
  lemma FullPercentageIffExceeded(q: UsageQuota)
    requires q.distanceLimit > 0.0
    ensures GetDistancePercentage(q) == Percent(100.0) <==> IsDistanceExceeded(q)
  {
    if q.distanceTraveled < q.distanceLimit {
      assert q.distanceTraveled / q.distanceLimit < 1.0;
    } else {
      assert q.distanceTraveled / q.distanceLimit >= 1.0;
    }
  }
}
