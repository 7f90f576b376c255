/** The development location simulator (src/test/location-simulator.ts):
    a route of points replayed into the location store on a timer, with a
    current index, looping, a speed multiplier, jumps, and a status report.

    The timer is modelled by its handle: `start` registers one interval and
    `Tick` is one firing of it. The clock and the `atan2` angle between two
    points are parameters. A step that reads past the end of the route is a
    thrown `TypeError` in the source and an `Err` here. */
module Simulator {
  import opened Optional
  import opened PoiModel
  import opened Interfaces
  import Geo
  import LocationStore

  /** `SAMPLE_ROUTE`: twenty points heading north-west from Taipei 101. */
  const SampleRoute: seq<Coord> := [
    Coord(25.0330, 121.5654), Coord(25.0340, 121.5640), Coord(25.0350, 121.5625),
    Coord(25.0365, 121.5610), Coord(25.0380, 121.5595), Coord(25.0395, 121.5580),
    Coord(25.0410, 121.5565), Coord(25.0425, 121.5550), Coord(25.0440, 121.5535),
    Coord(25.0455, 121.5520), Coord(25.0470, 121.5505), Coord(25.0485, 121.5490),
    Coord(25.0500, 121.5475), Coord(25.0515, 121.5460), Coord(25.0530, 121.5445),
    Coord(25.0545, 121.5430), Coord(25.0560, 121.5415), Coord(25.0575, 121.5400),
    Coord(25.0590, 121.5385), Coord(25.0605, 121.5370)]

  /** The `atan2` angle in degrees from one point to the next. */
  type AngleFn = (Coord, Coord) -> real

  datatype Options = Options(intervalMs: real, loop: bool, speedMultiplier: real)

  /** `Partial<SimulatorOptions>`. */
  datatype OptionsUpdate = OptionsUpdate(intervalMs: Option<real>, loop: Option<bool>, speedMultiplier: Option<real>)

  /** The simulator and the location store it writes to. `active` holds the
      handles of the intervals still registered with the timer; like the
      browser's, handles are positive. */
  datatype Sim = Sim(
    route: seq<Coord>,
    index: int,
    options: Options,
    intervalId: Option<nat>,
    active: set<nat>,
    nextHandle: nat,
    store: LocationStore.State)

  /** The singleton as created: the sample route, two seconds, looping, at
      normal speed, not running. */
  function Initial(store: LocationStore.State): (s: Sim)
    ensures |s.route| == 20 && s.index == 0 && s.intervalId.None? && s.active == {}
    ensures s.options == Options(2000.0, true, 1.0)
    ensures Valid(s)
  {
    Sim(SampleRoute, 0, Options(2000.0, true, 1.0), None, {}, 1, store)
  }

  /** The timer holds exactly the simulator's interval, if any. */
  predicate Valid(s: Sim) {
    && (s.intervalId.None? ==> s.active == {})
    && (s.intervalId.Some? ==> s.active == {s.intervalId.value})
    && 0 < s.nextHandle
    && (forall h :: h in s.active ==> 0 < h < s.nextHandle)
  }

  /** `setRoute`. */
  function SetRoute(s: Sim, route: seq<Coord>): (r: Sim)
    ensures r.route == route && r.index == 0
    ensures r.(route := s.route, index := s.index) == s
  {
    s.(route := route, index := 0)
  }

  /** `setOptions`: the supplied fields replace the current ones. */
  function SetOptions(s: Sim, u: OptionsUpdate): (r: Sim)
    ensures r.options == Options(u.intervalMs.GetOr(s.options.intervalMs), u.loop.GetOr(s.options.loop),
                                 u.speedMultiplier.GetOr(s.options.speedMultiplier))
    ensures r.(options := s.options) == s
  {
    s.(options := Options(u.intervalMs.GetOr(s.options.intervalMs), u.loop.GetOr(s.options.loop),
                          u.speedMultiplier.GetOr(s.options.speedMultiplier)))
  }

  /** The tick period: the interval divided by the speed multiplier, a zero
      multiplier counting as one. */
  function Period(o: Options): (p: real)
    ensures o.speedMultiplier == 0.0 ==> p == o.intervalMs
    ensures o.speedMultiplier != 0.0 ==> p * o.speedMultiplier == o.intervalMs
  {
    if o.speedMultiplier == 0.0 then o.intervalMs else o.intervalMs / o.speedMultiplier
  }

  /** The index whose point the heading is measured from. */
  function PreviousIndex(i: int): (p: int)
    ensures p >= 0 && (i >= 1 ==> p == i - 1) && (i < 1 ==> p == 0)
  {
    if i - 1 > 0 then i - 1 else 0
  }

  /** The sample `emitPosition` builds for index `i`, or the `TypeError`
      when `i` is not an index of the route. */
  function Sample(route: seq<Coord>, i: int, now: int, angle: AngleFn): (r: Result<GeoPosition, string>)
    ensures r.Ok? <==> 0 <= i < |route|
    ensures r.Ok? ==>
      && r.value.latitude == route[i].latitude && r.value.longitude == route[i].longitude
      && r.value.heading == Some(Geo.NormalizeBearing(angle(route[PreviousIndex(i)], route[i])))
      && r.value.speed == Some(15.0) && r.value.accuracy == 10.0 && r.value.timestamp == now
  {
    if 0 <= i < |route| && PreviousIndex(i) < |route| then
      var p := route[i];
      Ok(GeoPosition(p.latitude, p.longitude,
                     Some(Geo.NormalizeBearing(angle(route[PreviousIndex(i)], p))),
                     Some(15.0), 10.0, now))
    else Err("TypeError")
  }

  /** `emitPosition`: publish the sample for the current index. It throws
      exactly when the index is off the route; otherwise the store holds the
      route's point there and nothing but the store changes. */
  function Emit(s: Sim, now: int, angle: AngleFn): (r: Result<Sim, string>)
    ensures r.Ok? <==> 0 <= s.index < |s.route|
    ensures r.Ok? ==>
      && r.value.(store := s.store) == s
      && r.value.store.currentPosition.Some? && r.value.store.error.None?
      && r.value.store.currentPosition.value.latitude == s.route[s.index].latitude
      && r.value.store.currentPosition.value.longitude == s.route[s.index].longitude
      && r.value.store.isTracking == s.store.isTracking
  {
    match Sample(s.route, s.index, now, angle)
    case Ok(position) => Ok(s.(store := LocationStore.UpdatePosition(s.store, position)))
    case Err(e) => Err(e)
  }

  /** `stop`: clear the interval if there is one. */
  function Stop(s: Sim): (r: Sim)
    ensures r.intervalId.None? && r.active == s.active - (if s.intervalId.Some? then {s.intervalId.value} else {})
    ensures r.(intervalId := s.intervalId, active := s.active) == s
  {
    match s.intervalId
    case Some(id) => s.(intervalId := None, active := s.active - {id})
    case None => s
  }

  /** What `start` leaves behind: the simulator, and whether it threw before
      registering its interval. */
  datatype Started = Started(sim: Sim, threw: bool)

  /** `start`: stop a running interval, mark the store as granted and
      tracking, emit the current point, and register a new interval. */
  function Start(s: Sim, now: int, angle: AngleFn): (o: Started)
    ensures o.sim.store.permissionState == Some(Granted) && o.sim.store.isTracking
    ensures o.threw <==> !(0 <= s.index < |s.route|)
    ensures o.threw ==> o.sim.intervalId.None?
    ensures !o.threw ==> o.sim.intervalId == Some(s.nextHandle) && o.sim.nextHandle == s.nextHandle + 1
  {
    var stopped := Stop(s);
    var marked := stopped.(store := stopped.store.(permissionState := Some(Granted), isTracking := true));
    match Emit(marked, now, angle)
    case Err(_) => Started(marked, true)
    case Ok(emitted) =>
      Started(emitted.(intervalId := Some(s.nextHandle), active := emitted.active + {s.nextHandle},
                       nextHandle := s.nextHandle + 1), false)
  }

  /** One firing of the interval, as written: advance; past the end either
      wrap to the first point or stop without emitting. */
  function Tick(s: Sim, now: int, angle: AngleFn): (r: Result<Sim, string>)
  {
    var next := s.index + 1;
    if next >= |s.route| then
      if s.options.loop then Emit(s.(index := 0), now, angle)
      else Ok(Stop(s.(index := next)))
    else Emit(s.(index := next), now, angle)
  }

  /** Every point a tick emits is a point of the route: on a non-empty
      route a tick from a point of the route either emits the next point,
      wraps to the first, or stops. */
  lemma TickEmitsWithinRoute(s: Sim, now: int, angle: AngleFn)
    requires 0 <= s.index < |s.route|
    ensures Tick(s, now, angle).Ok?
    ensures var r := Tick(s, now, angle).value;
      (s.index + 1 < |s.route| ==> r.index == s.index + 1 && r.store.currentPosition.Some?)
      && (s.index + 1 == |s.route| && s.options.loop ==> r.index == 0 && r.store.currentPosition.Some?)
      && (s.index + 1 == |s.route| && !s.options.loop ==> r.intervalId.None? && r.store == s.store)
      && r.route == s.route && r.options == s.options
      && (r.store != s.store ==>
            (0 <= r.index < |s.route|
             && r.store.currentPosition.value.latitude == s.route[r.index].latitude
             && r.store.currentPosition.value.longitude == s.route[r.index].longitude))
  {
  }

  /** A looping simulation never leaves the route: after any number of ticks
      it is still at a point of it. */
  function TickMany(s: Sim, n: nat, now: int, angle: AngleFn): Result<Sim, string>
    decreases n
  {
    if n == 0 then Ok(s)
    else
      match Tick(s, now, angle)
      case Ok(next) => TickMany(next, n - 1, now, angle)
      case Err(e) => Err(e)
  }

  /** The remainder is determined by any decomposition `a = q * m + r`. */
  lemma ModUnique(a: int, q: int, r: int, m: int)
    requires m > 0 && a == q * m + r && 0 <= r < m
    ensures a % m == r
  {
    var q', r' := a / m, a % m;
    assert (q - q') * m == r' - r;
    MultipleBound(q - q', m);
  }

  /** A non-zero multiple of a positive `m` is at least `m` away from 0. */
  lemma MultipleBound(d: int, m: int)
    requires m > 0
    ensures d >= 1 ==> d * m >= m
    ensures d <= -1 ==> d * m <= -m
  {
  }

  /** Stepping an index around a cycle of length `m`. */
  lemma WrapStep(i: int, k: nat, m: int)
    requires 0 <= i < m
    ensures ((i + 1) % m + k) % m == (i + 1 + k) % m
  {
    if i + 1 == m {
      assert (i + 1) % m == 0;
      var q, r := k / m, k % m;
      ModUnique(m + k, q + 1, r, m);
    } else {
      assert (i + 1) % m == i + 1;
    }
  }

  lemma {:induction false} LoopingStaysOnRoute(s: Sim, n: nat, now: int, angle: AngleFn)
    requires 0 <= s.index < |s.route| && s.options.loop
    ensures TickMany(s, n, now, angle).Ok?
    ensures 0 <= TickMany(s, n, now, angle).value.index < |s.route|
    ensures TickMany(s, n, now, angle).value.route == s.route
    ensures TickMany(s, n, now, angle).value.index == (s.index + n) % |s.route|
    decreases n
  {
    if n > 0 {
      LoopingTick(s, now, angle);
      var next := Tick(s, now, angle).value;
      assert TickMany(s, n, now, angle) == TickMany(next, n - 1, now, angle);
      LoopingStaysOnRoute(next, n - 1, now, angle);
      WrapStep(s.index, n - 1, |s.route|);
    }
  }

  /** One looping tick moves one step around the route and keeps the route
      and the options. */
  lemma LoopingTick(s: Sim, now: int, angle: AngleFn)
    requires 0 <= s.index < |s.route| && s.options.loop
    ensures Tick(s, now, angle).Ok?
    ensures Tick(s, now, angle).value.index == (s.index + 1) % |s.route|
    ensures Tick(s, now, angle).value.route == s.route && Tick(s, now, angle).value.options == s.options
  {
    if s.index + 1 == |s.route| {
      assert (s.index + 1) % |s.route| == 0;
    } else {
      assert (s.index + 1) % |s.route| == s.index + 1;
    }
  }

  /** `reset`: stop and rewind. */
  function Reset(s: Sim): (r: Sim)
    ensures r.intervalId.None? && r.index == 0 && r.route == s.route && r.store == s.store
  {
    Stop(s).(index := 0)
  }

  /** `jumpToIndex`: only an index of the route moves the simulator, and
      then its point is emitted; any other index changes nothing. */
  function JumpToIndex(s: Sim, i: int, now: int, angle: AngleFn): (r: Sim)
    ensures !(0 <= i < |s.route|) ==> r == s
    ensures 0 <= i < |s.route| ==>
      (r.index == i && r.store.currentPosition.Some?
       && r.store.currentPosition.value.latitude == s.route[i].latitude
       && r.store.currentPosition.value.longitude == s.route[i].longitude
       && r.intervalId == s.intervalId && r.route == s.route)
  {
    if 0 <= i < |s.route| then
      match Emit(s.(index := i), now, angle)
      case Ok(r) => r
      case Err(_) => s
    else s
  }

  /** `getStatus`. The progress is `None` for an empty route, where the
      division has no finite result. */
  datatype Status = Status(isRunning: bool, currentIndex: int, totalPoints: int, progress: Option<real>)

  function GetStatus(s: Sim): (st: Status)
    ensures st.isRunning <==> s.intervalId.Some?
    ensures st.totalPoints == |s.route| && st.currentIndex == s.index
    ensures st.progress.Some? <==> |s.route| > 0
    ensures 0 <= s.index < |s.route| ==> 0.0 < st.progress.value <= 100.0
    ensures |s.route| > 0 ==> st.progress.value * (|s.route| as real) == ((s.index + 1) as real) * 100.0
    ensures |s.route| > 0 && s.index >= |s.route| ==> st.progress.value > 100.0
  {
    if |s.route| == 0 then Status(s.intervalId.Some?, s.index, 0, None)
    else Status(s.intervalId.Some?, s.index, |s.route|, Some((s.index + 1) as real / |s.route| as real * 100.0))
  }

  /** At most one interval is ever registered: `start` clears the running one
      first, and `stop` is idempotent. */
  lemma AtMostOneInterval(s: Sim, now: int, angle: AngleFn)
    requires Valid(s)
    ensures Valid(Stop(s)) && Stop(Stop(s)) == Stop(s)
    ensures Valid(Start(s, now, angle).sim)
    ensures Valid(Reset(s))
    ensures 0 <= s.index < |s.route| ==> Valid(JumpToIndex(s, s.index, now, angle))
    ensures Tick(s, now, angle).Ok? ==> Valid(Tick(s, now, angle).value)
  {
  }

  /** The heading of the first point is measured from itself; every later
      point from the one before. */
  lemma HeadingReference(route: seq<Coord>, i: int, now: int, angle: AngleFn)
    requires 0 <= i < |route|
    ensures i == 0 ==> Sample(route, i, now, angle).value.heading == Some(Geo.NormalizeBearing(angle(route[0], route[0])))
    ensures i > 0 ==> Sample(route, i, now, angle).value.heading == Some(Geo.NormalizeBearing(angle(route[i - 1], route[i])))
  {
  }

  /** A run without looping ends with the index one past the last point:
      the status then reports more than 100% and a fresh `start` reads past
      the end and throws, after marking the store as tracking. Shown on the
      sample route. */
  lemma FinishedRunCannotRestart(store: LocationStore.State, now: int, angle: AngleFn)
    ensures var s := Initial(store).(index := 19, options := Options(2000.0, false, 1.0));
      var finished := Tick(s, now, angle).value;
      && finished.index == 20 && finished.intervalId.None?
      && GetStatus(finished).progress == Some(105.0)
      && Start(finished, now, angle).threw
      && Start(finished, now, angle).sim.store.isTracking
  {
  }

  /** The tick with the end handled as evidently intended: without looping
      the simulator stops on the last point. */
  function TickCorrected(s: Sim, now: int, angle: AngleFn): Result<Sim, string> {
    var next := s.index + 1;
    if next >= |s.route| then
      if s.options.loop then Emit(s.(index := 0), now, angle)
      else Ok(Stop(s))
    else Emit(s.(index := next), now, angle)
  }

  /** The corrected tick keeps the index on the route, so a finished run
      reports 100% and can be started again. */
  lemma TickCorrectedStaysOnRoute(s: Sim, now: int, angle: AngleFn)
    requires 0 <= s.index < |s.route|
    ensures TickCorrected(s, now, angle).Ok?
    ensures var r := TickCorrected(s, now, angle).value;
      0 <= r.index < |r.route| && r.route == s.route
      && !Start(r, now, angle).threw
      && (s.index + 1 == |s.route| && !s.options.loop ==> GetStatus(r).progress == Some(100.0) && r.intervalId.None?)
  {
    var n := |s.route| as real;
    assert n / n == 1.0;
  }
}
