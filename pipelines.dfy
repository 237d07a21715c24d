/** The data pipelines of app.js: `getUserLocation`'s fallback chain, online
    entry (`initOnlineMode`), the five-minute refresh tick (`setUpDataRefresh`)
    and the text of the emergency SMS (`sendEmergencySMS`). Every network call
    is an outcome given as input; a thrown error aborts the rest of the step
    and is swallowed by the step's `catch`. */
module Pipelines {
  import opened Wrappers
  import opened Payloads
  import CacheStore
  import Text

  datatype Location = Location(latitude: string, longitude: string, accuracy: string)

  /** `getUserLocation`: the CAMARA answer (`None` for a network error, a
      non-ok response or an unreadable body), else the browser's geolocation,
      else an error (`None`). */
  function UserLocation(camara: Option<Location>, browser: Option<Location>): (r: Option<Location>)
    ensures r.None? <==> camara.None? && browser.None?
    ensures camara.Some? ==> r == camara
    ensures r.Some? && r != camara ==> camara.None? && r == browser
  {
    if camara.Some? then camara else browser
  }

  /** The outcomes one fetch-and-store attempt depends on. `fetched` is the
      result of `fetchEmergencyData` (`None` when it throws), `dbOpens` the
      outcome of opening the cache for `storeDataInCache`, `now` is `Date.now()`. */
  datatype Attempt = Attempt(
    camara: Option<Location>,
    browser: Option<Location>,
    fetched: Option<Payload>,
    dbOpens: bool,
    now: int)

  /** The payload an attempt writes to the cache, if every step before and
      including the write succeeds. */
  function Stored(cachesAvailable: bool, a: Attempt): (d: Option<Payload>)
    ensures d.Some? <==>
      UserLocation(a.camara, a.browser).Some? && a.fetched.Some? && (a.dbOpens || !cachesAvailable)
    ensures d.Some? ==> d == a.fetched
  {
    if UserLocation(a.camara, a.browser).None? then None
    else if a.fetched.None? then None
    else if cachesAvailable && !a.dbOpens then None
    else a.fetched
  }

  /** `displayEmergencyInfo` returns normally only for an object with the three
      arrays; on anything else reading `.map` throws. */
  predicate Displayable(p: Payload) {
    p.Info?
  }

  /** What online entry leaves behind. */
  datatype EntryOutcome = EntryOutcome(cache: CacheStore.Backends, shown: Option<EmergencyInfo>, refreshScheduled: bool)

  /** `initOnlineMode` after `requestQoD` (which catches its own errors and whose
      result is unused): location, fetch, store, display, then schedule the
      refresh interval. */
  function OnlineEntry(b: CacheStore.Backends, cachesAvailable: bool, a: Attempt): (o: EntryOutcome)
    ensures Stored(cachesAvailable, a).None? ==> o == EntryOutcome(b, None, false)
    ensures Stored(cachesAvailable, a).Some? ==>
      Some(o.cache) == CacheStore.Put(b, cachesAvailable, a.dbOpens, a.fetched.value, a.now)
    ensures o.refreshScheduled <==> Stored(cachesAvailable, a).Some? && Displayable(a.fetched.value)
    ensures o.shown.Some? <==> o.refreshScheduled
    ensures o.shown.Some? ==> a.fetched == Some(Info(o.shown.value))
  {
    match Stored(cachesAvailable, a)
    case None => EntryOutcome(b, None, false)
    case Some(data) =>
      var written := CacheStore.Put(b, cachesAvailable, a.dbOpens, data, a.now).value;
      if Displayable(data) then EntryOutcome(written, Some(data.info), true)
      else EntryOutcome(written, None, false)
  }

  /** One run of the refresh interval's callback. */
  datatype Tick = Tick(navigatorOnLine: bool, attempt: Attempt)

  /** The payload a tick writes, if any: nothing is attempted while the browser
      reports no network. */
  function TickStores(cachesAvailable: bool, t: Tick): (d: Option<Payload>)
    ensures d.Some? <==> t.navigatorOnLine && Stored(cachesAvailable, t.attempt).Some?
    ensures d.Some? ==> d == t.attempt.fetched
  {
    if t.navigatorOnLine then Stored(cachesAvailable, t.attempt) else None
  }

  /** The cache after one tick; a failure anywhere leaves it as it was. */
  function TickCache(b: CacheStore.Backends, cachesAvailable: bool, t: Tick): (r: CacheStore.Backends)
    ensures TickStores(cachesAvailable, t).None? ==> r == b
    ensures TickStores(cachesAvailable, t).Some? ==>
      Some(r) == CacheStore.Put(b, cachesAvailable, t.attempt.dbOpens, t.attempt.fetched.value, t.attempt.now)
  {
    match TickStores(cachesAvailable, t)
    case None => b
    case Some(data) => CacheStore.Put(b, cachesAvailable, t.attempt.dbOpens, data, t.attempt.now).value
  }

  /** The cache after a sequence of ticks, oldest first. */
  function Refreshes(b: CacheStore.Backends, cachesAvailable: bool, ticks: seq<Tick>): CacheStore.Backends
    decreases |ticks|
  {
    if ticks == [] then b else Refreshes(TickCache(b, cachesAvailable, ticks[0]), cachesAvailable, ticks[1..])
  }

  lemma {:induction false} RefreshesSplit(b: CacheStore.Backends, cachesAvailable: bool, xs: seq<Tick>, ys: seq<Tick>)
    ensures Refreshes(b, cachesAvailable, xs + ys) ==
            Refreshes(Refreshes(b, cachesAvailable, xs), cachesAvailable, ys)
    decreases |xs|
  {
    if xs == [] {
      assert xs + ys == ys;
    } else {
      assert (xs + ys)[0] == xs[0];
      assert (xs + ys)[1..] == xs[1..] + ys;
      var next := TickCache(b, cachesAvailable, xs[0]);
      assert Refreshes(b, cachesAvailable, xs + ys) == Refreshes(next, cachesAvailable, xs[1..] + ys);
      assert Refreshes(b, cachesAvailable, xs) == Refreshes(next, cachesAvailable, xs[1..]);
      RefreshesSplit(TickCache(b, cachesAvailable, xs[0]), cachesAvailable, xs[1..], ys);
    }
  }

  /** Ticks that all fail (or find the browser offline) leave the cache exactly
      as it was: stale data keeps being served. */
  lemma {:induction false} FailedTicksKeepCache(b: CacheStore.Backends, cachesAvailable: bool, ticks: seq<Tick>)
    requires forall i | 0 <= i < |ticks| :: TickStores(cachesAvailable, ticks[i]).None?
    ensures Refreshes(b, cachesAvailable, ticks) == b
    decreases |ticks|
  {
    if ticks != [] {
      FailedTicksKeepCache(TickCache(b, cachesAvailable, ticks[0]), cachesAvailable, ticks[1..]);
    }
  }

  /** After a sequence of ticks, `getCachedData` returns what the last writing
      tick fetched (for data it can read back), whatever failed afterwards. */
  lemma LastWriteWins(b: CacheStore.Backends, cachesAvailable: bool, ticks: seq<Tick>, i: nat)
    requires i < |ticks| && TickStores(cachesAvailable, ticks[i]).Some?
    requires forall j | i < j < |ticks| :: TickStores(cachesAvailable, ticks[j]).None?
    requires !cachesAvailable || Truthy(ticks[i].attempt.fetched.value)
    ensures CacheStore.Get(Refreshes(b, cachesAvailable, ticks), cachesAvailable, true) ==
            ticks[i].attempt.fetched.value
  {
    assert ticks == ticks[..i + 1] + ticks[i + 1..];
    RefreshesSplit(b, cachesAvailable, ticks[..i + 1], ticks[i + 1..]);
    FailedTicksKeepCache(Refreshes(b, cachesAvailable, ticks[..i + 1]), cachesAvailable, ticks[i + 1..]);
    assert ticks[..i + 1] == ticks[..i] + [ticks[i]];
    RefreshesSplit(b, cachesAvailable, ticks[..i], [ticks[i]]);
    var before := Refreshes(b, cachesAvailable, ticks[..i]);
    assert Refreshes(b, cachesAvailable, ticks[..i + 1]) == TickCache(before, cachesAvailable, ticks[i]);
    CacheStore.PutThenGet(before, cachesAvailable, ticks[i].attempt.fetched.value, ticks[i].attempt.now);
  }

  /** The first words of every emergency SMS. */
  const AlertPrefix: string := "EMERGENCY ALERT: "

  /** The text sent when there is no cached data. */
  const GenericNotice: string :=
    "No internet connection detected. Emergency services have been notified of your location. Stay in a safe place."

  function ShelterLine(s: Shelter): string {
    "Nearest shelter: " + s.name + ", " + s.distance + "km away. "
  }

  function RouteLine(r: EvacuationRoute): string {
    "Evacuation route: " + r.description + ". "
  }

  function StationLine(g: GasStation): string {
    "Nearest gas station: " + g.name + ", " + g.distance + "km away."
  }

  /** The cached data lacks one of the three first entries, so reading it throws. */
  predicate MissingFirstEntry(cached: Payload) {
    cached.OtherTruthy? ||
    (cached.Info? &&
     (|cached.info.shelters| == 0 || |cached.info.evacuationRoutes| == 0 || |cached.info.gasStations| == 0))
  }

  /** The message `sendEmergencySMS` composes from `getCachedData()`; `None`
      when composing throws (and the function's `catch` gives up the send). */
  function SmsBody(cached: Payload): (m: Option<string>)
    ensures m.None? <==> MissingFirstEntry(cached)
    ensures m.Some? ==> |AlertPrefix| <= |m.value| && m.value[..|AlertPrefix|] == AlertPrefix
    ensures cached.Falsy? ==> m == Some(AlertPrefix + GenericNotice)
  {
    match cached
    case Falsy => Some(AlertPrefix + GenericNotice)
    case OtherTruthy => None
    case Info(info) =>
      if |info.shelters| == 0 || |info.evacuationRoutes| == 0 || |info.gasStations| == 0 then None
      else Some(AlertPrefix + ShelterLine(info.shelters[0]) + RouteLine(info.evacuationRoutes[0]) +
                StationLine(info.gasStations[0]))
  }

  /** Only the first shelter, route and station matter: data that agree on them
      give the same message. */
  lemma SmsUsesFirstEntriesOnly(i1: EmergencyInfo, i2: EmergencyInfo)
    requires |i1.shelters| > 0 && |i1.evacuationRoutes| > 0 && |i1.gasStations| > 0
    requires |i2.shelters| > 0 && |i2.evacuationRoutes| > 0 && |i2.gasStations| > 0
    requires i1.shelters[0] == i2.shelters[0]
    requires i1.evacuationRoutes[0] == i2.evacuationRoutes[0]
    requires i1.gasStations[0] == i2.gasStations[0]
    ensures SmsBody(Info(i1)) == SmsBody(Info(i2))
  {
  }

  /** With cached data the message goes on with the shelter's name, then the
      route, then the gas station. */
  lemma SmsOrder(info: EmergencyInfo)
    requires |info.shelters| > 0 && |info.evacuationRoutes| > 0 && |info.gasStations| > 0
    ensures var m := SmsBody(Info(info)).value;
      var shelter := AlertPrefix + "Nearest shelter: " + info.shelters[0].name;
      var route := "Evacuation route: " + info.evacuationRoutes[0].description;
      var station := "Nearest gas station: " + info.gasStations[0].name;
      exists k1, k2 | |shelter| <= k1 <= k2 <= |m| - |station| ::
        m[..|shelter|] == shelter && Text.OccursAt(m, route, k1) && Text.OccursAt(m, station, k2)
  {
    var m := SmsBody(Info(info)).value;
    var p1 := AlertPrefix + ShelterLine(info.shelters[0]);
    var p2 := p1 + RouteLine(info.evacuationRoutes[0]);
    assert m == p1 + RouteLine(info.evacuationRoutes[0]) + StationLine(info.gasStations[0]);
    var shelter := AlertPrefix + "Nearest shelter: " + info.shelters[0].name;
    var route := "Evacuation route: " + info.evacuationRoutes[0].description;
    var station := "Nearest gas station: " + info.gasStations[0].name;
    assert m[..|shelter|] == shelter;
    assert m[|p1|..|p1| + |route|] == route;
    assert m[|p2|..|p2| + |station|] == station;
    assert |shelter| <= |p1| <= |p2| <= |m| - |station|;
    assert Text.OccursAt(m, route, |p1|) && Text.OccursAt(m, station, |p2|);
  }
}
