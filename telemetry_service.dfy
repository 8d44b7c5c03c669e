/**
 * The telemetry service: ingest into an append-only store, a cache of the
 * newest reading per device, the latest-reading query, the site summary and
 * the threshold alerts.
 *
 * The cache is a map from cache keys (`latestTelemetry:<deviceId>`) to
 * records; the store is the sequence of persisted records in insertion
 * order. Failures of the store and of the cache are explicit parameters.
 */
module Service {
  import opened Results
  import opened HttpErrors
  import opened TelemetryTypes

  // ---------------------------------------------------------------------
  // Latest-reading cache
  // ---------------------------------------------------------------------

  const LATEST_PREFIX := "latestTelemetry:"

  /** The cache key under which the newest reading of a device is kept. */
  function LatestKey(deviceId: string): string {
    LATEST_PREFIX + deviceId
  }

  /** Distinct devices never share a cache entry. */
  lemma LatestKeyInjective(a: string, b: string)
    ensures LatestKey(a) == LatestKey(b) <==> a == b
  {
    if LatestKey(a) == LatestKey(b) {
      assert a == LatestKey(a)[|LATEST_PREFIX|..];
      assert b == LatestKey(b)[|LATEST_PREFIX|..];
    }
  }

  type Cache = map<string, Telemetry>

  /**
   * One step of `cacheLatest`: the device's entry is written only when
   * nothing is cached for it or the record is strictly newer; every other
   * key is left alone.
   */
  function Refresh(cache: Cache, t: Telemetry): (r: Cache)
    ensures LatestKey(t.deviceId) in r
    ensures forall k :: k != LatestKey(t.deviceId) ==> (k in r <==> k in cache)
    ensures forall k :: k in cache && k != LatestKey(t.deviceId) ==> r[k] == cache[k]
    ensures LatestKey(t.deviceId) !in cache ==> r[LatestKey(t.deviceId)] == t
    ensures LatestKey(t.deviceId) in cache && t.ts > cache[LatestKey(t.deviceId)].ts
      ==> r[LatestKey(t.deviceId)] == t
    ensures LatestKey(t.deviceId) in cache && t.ts <= cache[LatestKey(t.deviceId)].ts ==> r == cache
  {
    var key := LatestKey(t.deviceId);
    if key !in cache || t.ts > cache[key].ts then cache[key := t] else cache
  }

  /**
   * `cacheLatest` over a batch, processed left to right. The indices in
   * `failed` are the records whose cache read or write was rejected; such a
   * failure is logged and the record is skipped.
   */
  function RefreshAll(cache: Cache, saved: seq<Telemetry>, failed: set<nat>): Cache
    decreases |saved|
  {
    if saved == [] then cache
    else
      var before := RefreshAll(cache, saved[..|saved| - 1], failed);
      if |saved| - 1 in failed then before else Refresh(before, saved[|saved| - 1])
  }

  /** The keys of the records whose cache calls succeeded. */
  function SucceededKeys(saved: seq<Telemetry>, failed: set<nat>): set<string> {
    set i | 0 <= i < |saved| && i !in failed :: LatestKey(saved[i].deviceId)
  }

  /** A batch adds exactly the keys of the records whose cache calls succeeded. */
  lemma {:induction false} RefreshAllKeys(cache: Cache, saved: seq<Telemetry>, failed: set<nat>)
    ensures RefreshAll(cache, saved, failed).Keys == cache.Keys + SucceededKeys(saved, failed)
    decreases |saved|
  {
    if saved != [] {
      var n := |saved| - 1;
      RefreshAllKeys(cache, saved[..n], failed);
      assert SucceededKeys(saved, failed)
        == SucceededKeys(saved[..n], failed) + (if n in failed then {} else {LatestKey(saved[n].deviceId)});
    }
  }

  /** Every entry is stored under its own device's key. */
  ghost predicate CacheConsistent(cache: Cache) {
    forall k :: k in cache ==> k == LatestKey(cache[k].deviceId)
  }

  /** For every stored record, the cache holds a reading of its device at least as new. */
  ghost predicate CacheIsNewest(cache: Cache, store: seq<Telemetry>) {
    forall t :: t in store ==>
      LatestKey(t.deviceId) in cache && cache[LatestKey(t.deviceId)].ts >= t.ts
  }

  /** The devices whose cache keys a batch may touch. */
  ghost function TouchedKeys(saved: seq<Telemetry>): set<string> {
    set t | t in saved :: LatestKey(t.deviceId)
  }

  /** A batch refresh never lowers the timestamp cached for any key. */
  lemma {:induction false} RefreshAllNeverRegresses(cache: Cache, saved: seq<Telemetry>, failed: set<nat>)
    ensures forall k :: k in cache ==>
      k in RefreshAll(cache, saved, failed) && RefreshAll(cache, saved, failed)[k].ts >= cache[k].ts
    decreases |saved|
  {
    if saved != [] {
      RefreshAllNeverRegresses(cache, saved[..|saved| - 1], failed);
    }
  }

  /** A batch refresh leaves the key of every device outside the batch as it was. */
  lemma {:induction false} RefreshAllFrame(cache: Cache, saved: seq<Telemetry>, failed: set<nat>)
    ensures forall k :: k !in TouchedKeys(saved) ==>
      (k in RefreshAll(cache, saved, failed) <==> k in cache)
    ensures forall k :: k !in TouchedKeys(saved) && k in cache ==>
      RefreshAll(cache, saved, failed)[k] == cache[k]
    decreases |saved|
  {
    if saved != [] {
      var init := saved[..|saved| - 1];
      RefreshAllFrame(cache, init, failed);
      assert TouchedKeys(saved) == TouchedKeys(init) + {LatestKey(saved[|saved| - 1].deviceId)} by {
        assert saved == init + [saved[|saved| - 1]];
      }
    }
  }

  /** Every cached value after a batch is either the old cached value or a record of the batch. */
  lemma {:induction false} RefreshAllOrigin(cache: Cache, saved: seq<Telemetry>, failed: set<nat>)
    ensures forall k :: k in RefreshAll(cache, saved, failed) ==>
      (k in cache && RefreshAll(cache, saved, failed)[k] == cache[k])
      || RefreshAll(cache, saved, failed)[k] in saved
    decreases |saved|
  {
    if saved != [] {
      var init := saved[..|saved| - 1];
      RefreshAllOrigin(cache, init, failed);
      assert forall t :: t in init ==> t in saved;
    }
  }

  /** Batch refresh keeps every entry under its own device's key. */
  lemma {:induction false} RefreshAllConsistent(cache: Cache, saved: seq<Telemetry>, failed: set<nat>)
    requires CacheConsistent(cache)
    ensures CacheConsistent(RefreshAll(cache, saved, failed))
    decreases |saved|
  {
    if saved != [] {
      RefreshAllConsistent(cache, saved[..|saved| - 1], failed);
    }
  }

  /**
   * Every record whose cache operation succeeded is covered afterwards: its
   * device's entry is at least as new as the record.
   */
  lemma {:induction false} RefreshAllCatchesUp(cache: Cache, saved: seq<Telemetry>, failed: set<nat>)
    ensures forall i :: 0 <= i < |saved| && i !in failed ==>
      LatestKey(saved[i].deviceId) in RefreshAll(cache, saved, failed)
      && RefreshAll(cache, saved, failed)[LatestKey(saved[i].deviceId)].ts >= saved[i].ts
    decreases |saved|
  {
    if saved != [] {
      var n := |saved| - 1;
      var init := saved[..n];
      var before := RefreshAll(cache, init, failed);
      RefreshAllCatchesUp(cache, init, failed);
      forall i | 0 <= i < n && i !in failed
        ensures LatestKey(saved[i].deviceId) in RefreshAll(cache, saved, failed)
        ensures RefreshAll(cache, saved, failed)[LatestKey(saved[i].deviceId)].ts >= saved[i].ts
      {
        assert saved[i] == init[i];
      }
    }
  }

  /**
   * Two readings of one device with `t1.ts < t2.ts`, processed in either
   * order, leave the newer one cached (unless something newer was already
   * there).
   */
  lemma EitherOrderKeepsNewer(cache: Cache, t1: Telemetry, t2: Telemetry)
    requires t1.deviceId == t2.deviceId && t1.ts < t2.ts
    requires LatestKey(t1.deviceId) !in cache || cache[LatestKey(t1.deviceId)].ts < t2.ts
    ensures RefreshAll(cache, [t1, t2], {})[LatestKey(t1.deviceId)] == t2
    ensures RefreshAll(cache, [t2, t1], {})[LatestKey(t1.deviceId)] == t2
  {
    var key := LatestKey(t1.deviceId);
    assert [t1, t2][..1] == [t1] && [t2, t1][..1] == [t2];
    assert [t1][..0] == [] && [t2][..0] == [];
    assert RefreshAll(cache, [t1], {}) == Refresh(cache, t1);
    assert RefreshAll(cache, [t2], {}) == Refresh(cache, t2);
    var first := Refresh(cache, t1);
    assert first[key].ts < t2.ts;
    assert RefreshAll(cache, [t1, t2], {}) == Refresh(first, t2);
    var second := Refresh(cache, t2);
    assert second[key] == t2;
    assert RefreshAll(cache, [t2, t1], {}) == Refresh(second, t1);
  }

  /**
   * When no cache operation fails, a cache that was at least as new as the
   * store stays at least as new as the store extended by the batch.
   */
  lemma RefreshAllKeepsNewest(cache: Cache, store: seq<Telemetry>, saved: seq<Telemetry>)
    requires CacheIsNewest(cache, store)
    ensures CacheIsNewest(RefreshAll(cache, saved, {}), store + saved)
  {
    var r := RefreshAll(cache, saved, {});
    RefreshAllNeverRegresses(cache, saved, {});
    RefreshAllCatchesUp(cache, saved, {});
    forall t | t in store + saved
      ensures LatestKey(t.deviceId) in r && r[LatestKey(t.deviceId)].ts >= t.ts
    {
      if t !in store {
        var i :| 0 <= i < |saved| && saved[i] == t;
      }
    }
  }

  // ---------------------------------------------------------------------
  // The store's "newest record of a device" query
  // ---------------------------------------------------------------------

  /** `findOne({ deviceId }).sort({ ts: -1 })`: a record of the device with the greatest `ts`. */
  function NewestFor(store: seq<Telemetry>, deviceId: string): (r: Option<Telemetry>)
    ensures r.None? <==> forall t :: t in store ==> t.deviceId != deviceId
    ensures r.Some? ==> r.value in store && r.value.deviceId == deviceId
    ensures r.Some? ==> forall t :: t in store && t.deviceId == deviceId ==> t.ts <= r.value.ts
  {
    if store == [] then None
    else
      var rest := NewestFor(store[1..], deviceId);
      assert forall t :: t in store ==> t == store[0] || t in store[1..];
      if store[0].deviceId != deviceId then rest
      else if rest.None? || rest.value.ts < store[0].ts then Some(store[0])
      else rest
  }

  /**
   * A consistent cache that holds only stored records and is at least as new
   * as the store answers a hit with the same timestamp the store would.
   */
  lemma NewestCacheAgreesWithStore(cache: Cache, store: seq<Telemetry>, deviceId: string)
    requires CacheConsistent(cache)
    requires forall k :: k in cache ==> cache[k] in store
    requires CacheIsNewest(cache, store)
    requires NewestFor(store, deviceId).Some?
    ensures LatestKey(deviceId) in cache
    ensures cache[LatestKey(deviceId)].ts == NewestFor(store, deviceId).value.ts
  {
    var newest := NewestFor(store, deviceId).value;
    var key := LatestKey(deviceId);
    assert key in cache && cache[key].ts >= newest.ts;
    var cached := cache[key];
    LatestKeyInjective(cached.deviceId, deviceId);
    assert cached in store && cached.deviceId == deviceId;
  }

  // ---------------------------------------------------------------------
  // Summary aggregate
  // ---------------------------------------------------------------------

  /**
   * The time filter, applied only when both bounds are truthy; its bounds
   * are inclusive. A bound that does not parse compares false with every
   * instant, so it matches nothing.
   */
  predicate InWindow(t: Telemetry, from: Option<string>, to: Option<string>, instant: string -> Option<int>) {
    !(Present(from) && Present(to))
    || (instant(from.value).Some? && instant(to.value).Some?
        && instant(from.value).value <= t.ts <= instant(to.value).value)
  }

  /** The `$match` stage: the site, then the optional window. */
  predicate Matches(t: Telemetry, siteId: string, from: Option<string>, to: Option<string>, instant: string -> Option<int>) {
    t.siteId == siteId && InWindow(t, from, to, instant)
  }

  /** The records selected by `$match`, each as often as it is stored. */
  function Matching(store: seq<Telemetry>, siteId: string, from: Option<string>, to: Option<string>,
                    instant: string -> Option<int>): (r: seq<Telemetry>)
    ensures forall t :: t in r ==> t in store && Matches(t, siteId, from, to, instant)
    ensures forall t :: multiset(r)[t] == if Matches(t, siteId, from, to, instant) then multiset(store)[t] else 0
    ensures r == [] <==> forall t :: t in store ==> !Matches(t, siteId, from, to, instant)
  {
    if store == [] then []
    else
      var rest := Matching(store[1..], siteId, from, to, instant);
      assert store == [store[0]] + store[1..];
      if Matches(store[0], siteId, from, to, instant) then [store[0]] + rest else rest
  }

  /** Without both bounds the window is ignored: only the site selects. */
  lemma {:induction false} WindowNeedsBothBounds(store: seq<Telemetry>, siteId: string, from: Option<string>,
                                                 to: Option<string>, instant: string -> Option<int>)
    requires !(Present(from) && Present(to))
    ensures Matching(store, siteId, from, to, instant) == Matching(store, siteId, None, None, instant)
    ensures forall t :: t in Matching(store, siteId, from, to, instant) <==> t in store && t.siteId == siteId
  {
    SameWindowSameMatch(store, siteId, from, to, instant);
    SiteOnlyMatch(store, siteId, instant);
  }

  lemma {:induction false} SameWindowSameMatch(store: seq<Telemetry>, siteId: string, from: Option<string>,
                                               to: Option<string>, instant: string -> Option<int>)
    requires !(Present(from) && Present(to))
    ensures Matching(store, siteId, from, to, instant) == Matching(store, siteId, None, None, instant)
  {
    if store != [] {
      SameWindowSameMatch(store[1..], siteId, from, to, instant);
      assert Matches(store[0], siteId, from, to, instant) == Matches(store[0], siteId, None, None, instant);
    }
  }

  lemma SiteOnlyMatch(store: seq<Telemetry>, siteId: string, instant: string -> Option<int>)
    ensures forall t :: t in Matching(store, siteId, None, None, instant) <==> t in store && t.siteId == siteId
  {
    var r := Matching(store, siteId, None, None, instant);
    forall t | t in store && t.siteId == siteId
      ensures t in r
    {
      assert Matches(t, siteId, None, None, instant);
      assert multiset(r)[t] == multiset(store)[t];
    }
  }

  function Temperatures(s: seq<Telemetry>): (r: seq<real>)
    ensures |r| == |s| && forall i :: 0 <= i < |s| ==> r[i] == s[i].metrics.temperature
  {
    if s == [] then [] else [s[0].metrics.temperature] + Temperatures(s[1..])
  }

  function Humidities(s: seq<Telemetry>): (r: seq<real>)
    ensures |r| == |s| && forall i :: 0 <= i < |s| ==> r[i] == s[i].metrics.humidity
  {
    if s == [] then [] else [s[0].metrics.humidity] + Humidities(s[1..])
  }

  function Sum(xs: seq<real>): real {
    if xs == [] then 0.0 else xs[0] + Sum(xs[1..])
  }

  /** `$max`: an element of the values that bounds all of them. */
  function Max(xs: seq<real>): (m: real)
    requires xs != []
    ensures m in xs
    ensures forall i :: 0 <= i < |xs| ==> xs[i] <= m
  {
    if |xs| == 1 then xs[0]
    else
      var rest := Max(xs[1..]);
      assert forall i :: 1 <= i < |xs| ==> xs[i] == xs[1..][i - 1];
      if xs[0] >= rest then xs[0] else rest
  }

  /** A sum of values each at most `bound` is at most their number times `bound`. */
  lemma {:induction false} SumAtMost(xs: seq<real>, bound: real)
    requires forall i :: 0 <= i < |xs| ==> xs[i] <= bound
    ensures Sum(xs) <= |xs| as real * bound
  {
    if xs != [] {
      assert forall i :: 0 <= i < |xs| - 1 ==> xs[1..][i] == xs[i + 1];
      SumAtMost(xs[1..], bound);
      assert |xs| as real * bound == bound + (|xs| - 1) as real * bound;
    }
  }

  /** `$avg` over a non-empty sequence. */
  function Mean(xs: seq<real>): real
    requires xs != []
  {
    Sum(xs) / |xs| as real
  }

  /** The mean of a non-empty sequence never exceeds its maximum. */
  lemma AverageAtMostMax(xs: seq<real>)
    requires xs != []
    ensures Mean(xs) <= Max(xs)
  {
    var m := Max(xs);
    SumAtMost(xs, m);
    QuotientAtMost(Sum(xs), |xs| as real, m);
  }

  lemma QuotientAtMost(a: real, n: real, m: real)
    requires n > 0.0 && a <= n * m
    ensures a / n <= m
  {
    var q := a / n;
    assert q * n == a;
    if q > m {
      assert (q - m) * n > 0.0;
    }
  }

  /** The least of the values. */
  function Min(xs: seq<real>): (m: real)
    requires xs != []
    ensures m in xs
    ensures forall i :: 0 <= i < |xs| ==> m <= xs[i]
  {
    if |xs| == 1 then xs[0]
    else
      var rest := Min(xs[1..]);
      assert forall i :: 1 <= i < |xs| ==> xs[i] == xs[1..][i - 1];
      if xs[0] <= rest then xs[0] else rest
  }

  /** A sum of values each at least `bound` is at least their number times `bound`. */
  lemma {:induction false} SumAtLeast(xs: seq<real>, bound: real)
    requires forall i :: 0 <= i < |xs| ==> bound <= xs[i]
    ensures |xs| as real * bound <= Sum(xs)
  {
    if xs != [] {
      assert forall i :: 0 <= i < |xs| - 1 ==> xs[1..][i] == xs[i + 1];
      SumAtLeast(xs[1..], bound);
      assert |xs| as real * bound == bound + (|xs| - 1) as real * bound;
    }
  }

  /** The mean of a non-empty sequence is at least its minimum. */
  lemma AverageAtLeastMin(xs: seq<real>)
    requires xs != []
    ensures Min(xs) <= Mean(xs)
  {
    var m := Min(xs);
    SumAtLeast(xs, m);
    QuotientAtLeast(Sum(xs), |xs| as real, m);
  }

  lemma QuotientAtLeast(a: real, n: real, m: real)
    requires n > 0.0 && n * m <= a
    ensures m <= a / n
  {
    var q := a / n;
    assert q * n == a;
    if q < m {
      assert (m - q) * n > 0.0;
    }
  }

  /** The distinct devices among some records. */
  function Devices(s: seq<Telemetry>): set<string> {
    set t | t in s :: t.deviceId
  }

  /**
   * The `$group`/`$project` stages and the empty-result default: count,
   * distinct devices, averages and maxima; all zero when nothing matched.
   */
  function Summarize(matched: seq<Telemetry>): (r: SummaryResult)
    ensures r.count == |matched| && r.uniqueDevices == |Devices(matched)|
    ensures matched == [] ==> r == EmptySummary
    ensures forall t :: t in matched ==>
      t.metrics.temperature <= r.maxTemperature && t.metrics.humidity <= r.maxHumidity
    ensures matched != [] ==>
      (exists t :: t in matched && t.metrics.temperature == r.maxTemperature)
      && (exists t :: t in matched && t.metrics.humidity == r.maxHumidity)
    ensures matched != [] ==> r.avgTemperature <= r.maxTemperature && r.avgHumidity <= r.maxHumidity
    ensures matched != [] ==>
      (exists t :: t in matched && t.metrics.temperature <= r.avgTemperature)
      && (exists t :: t in matched && t.metrics.humidity <= r.avgHumidity)
  {
    if matched == [] then EmptySummary
    else
      var temps, hums := Temperatures(matched), Humidities(matched);
      TemperatureBounds(matched);
      HumidityBounds(matched);
      SummaryResult(|matched|, Mean(temps), Max(temps), Mean(hums), Max(hums), |Devices(matched)|)
  }

  /** `$max` of the temperatures is attained and bounds them; `$avg` lies between two readings. */
  lemma TemperatureBounds(matched: seq<Telemetry>)
    requires matched != []
    ensures forall t :: t in matched ==> t.metrics.temperature <= Max(Temperatures(matched))
    ensures exists t :: t in matched && t.metrics.temperature == Max(Temperatures(matched))
    ensures exists t :: t in matched && t.metrics.temperature <= Mean(Temperatures(matched))
    ensures Mean(Temperatures(matched)) <= Max(Temperatures(matched))
  {
    var temps := Temperatures(matched);
    AverageAtMostMax(temps);
    AverageAtLeastMin(temps);
    var i :| 0 <= i < |temps| && temps[i] == Max(temps);
    var j :| 0 <= j < |temps| && temps[j] == Min(temps);
    assert matched[i] in matched && matched[j] in matched;
    forall t | t in matched
      ensures t.metrics.temperature <= Max(temps)
    {
      var k :| 0 <= k < |matched| && matched[k] == t;
      assert temps[k] == t.metrics.temperature;
    }
  }

  /** `$max` of the humidities is attained and bounds them; `$avg` lies between two readings. */
  lemma HumidityBounds(matched: seq<Telemetry>)
    requires matched != []
    ensures forall t :: t in matched ==> t.metrics.humidity <= Max(Humidities(matched))
    ensures exists t :: t in matched && t.metrics.humidity == Max(Humidities(matched))
    ensures exists t :: t in matched && t.metrics.humidity <= Mean(Humidities(matched))
    ensures Mean(Humidities(matched)) <= Max(Humidities(matched))
  {
    var hums := Humidities(matched);
    AverageAtMostMax(hums);
    AverageAtLeastMin(hums);
    var i :| 0 <= i < |hums| && hums[i] == Max(hums);
    var j :| 0 <= j < |hums| && hums[j] == Min(hums);
    assert matched[i] in matched && matched[j] in matched;
    forall t | t in matched
      ensures t.metrics.humidity <= Max(hums)
    {
      var k :| 0 <= k < |matched| && matched[k] == t;
      assert hums[k] == t.metrics.humidity;
    }
  }

  // ---------------------------------------------------------------------
  // Alerts
  // ---------------------------------------------------------------------

  const HIGH_TEMPERATURE := "High Temperature"
  const HIGH_HUMIDITY := "High Humidity"

  /** The alert payload posted to the webhook; `reason` is one of the two texts above. */
  datatype Alert = Alert(deviceId: string, siteId: string, ts: int, reason: string, value: real)

  const TEMPERATURE_LIMIT: real := 50.0
  const HUMIDITY_LIMIT: real := 90.0

  /** `evaluateAlerts`: at most one alert per strict threshold, temperature first. */
  function EvaluateAlerts(t: Telemetry): (alerts: seq<Alert>)
    ensures |alerts| <= 2
    ensures forall a :: a in alerts ==> a.deviceId == t.deviceId && a.siteId == t.siteId && a.ts == t.ts
    ensures forall a :: a in alerts ==> a.reason == HIGH_TEMPERATURE || a.reason == HIGH_HUMIDITY
    ensures (exists a :: a in alerts && a.reason == HIGH_TEMPERATURE) <==> t.metrics.temperature > TEMPERATURE_LIMIT
    ensures (exists a :: a in alerts && a.reason == HIGH_HUMIDITY) <==> t.metrics.humidity > HUMIDITY_LIMIT
    ensures forall a :: a in alerts && a.reason == HIGH_TEMPERATURE ==> a.value == t.metrics.temperature
    ensures forall a :: a in alerts && a.reason == HIGH_HUMIDITY ==> a.value == t.metrics.humidity
    ensures forall i, j :: 0 <= i < j < |alerts| ==>
      alerts[i].reason == HIGH_TEMPERATURE && alerts[j].reason == HIGH_HUMIDITY
  {
    var temp := if t.metrics.temperature > TEMPERATURE_LIMIT
      then [Alert(t.deviceId, t.siteId, t.ts, HIGH_TEMPERATURE, t.metrics.temperature)] else [];
    var hum := if t.metrics.humidity > HUMIDITY_LIMIT
      then [Alert(t.deviceId, t.siteId, t.ts, HIGH_HUMIDITY, t.metrics.humidity)] else [];
    temp + hum
  }

  /** The thresholds are strict: readings at the limits raise nothing. */
  lemma AlertThresholdExamples(deviceId: string, siteId: string, ts: int)
    ensures EvaluateAlerts(Telemetry(deviceId, siteId, ts, Metrics(50.0, 90.0))) == []
    ensures EvaluateAlerts(Telemetry(deviceId, siteId, ts, Metrics(51.0, 90.0)))
            == [Alert(deviceId, siteId, ts, HIGH_TEMPERATURE, 51.0)]
    ensures EvaluateAlerts(Telemetry(deviceId, siteId, ts, Metrics(51.0, 91.0)))
            == [Alert(deviceId, siteId, ts, HIGH_TEMPERATURE, 51.0), Alert(deviceId, siteId, ts, HIGH_HUMIDITY, 91.0)]
  {
  }

  /** The alerts raised for a persisted batch, record by record. */
  function BatchAlerts(saved: seq<Telemetry>): (alerts: seq<Alert>)
    ensures forall a :: a in alerts <==> exists t :: t in saved && a in EvaluateAlerts(t)
  {
    if saved == [] then []
    else
      var init := saved[..|saved| - 1];
      var last := saved[|saved| - 1];
      assert forall t :: t in saved <==> t in init || t == last by {
        assert saved == init + [last];
      }
      BatchAlerts(init) + EvaluateAlerts(last)
  }

  /** How the webhook POST ended. */
  datatype PostOutcome =
    | Delivered
    | AxiosFailure(code: Option<string>, message: string)
    | ErrorFailure(message: string)
    | NonErrorFailure

  /** What `sendAlert` did with one alert. */
  datatype Delivery = Skipped | Posted(url: string, payload: Alert, failure: Option<string>)

  /** The logged reason of a failed POST: a timeout is told apart from every other failure. */
  function FailureReason(outcome: PostOutcome): (reason: Option<string>)
    ensures reason.None? <==> outcome.Delivered?
    ensures reason == Some("Request timed out") <==>
      (outcome.AxiosFailure? && outcome.code == Some("ECONNABORTED"))
      || (outcome.AxiosFailure? && outcome.message == "Request timed out")
      || (outcome.ErrorFailure? && outcome.message == "Request timed out")
    ensures outcome.AxiosFailure? && outcome.code != Some("ECONNABORTED") ==> reason == Some(outcome.message)
    ensures outcome.ErrorFailure? ==> reason == Some(outcome.message)
    ensures outcome.NonErrorFailure? ==> reason == Some("unknown error")
  {
    match outcome
    case Delivered => None
    case AxiosFailure(code, message) => Some(if code == Some("ECONNABORTED") then "Request timed out" else message)
    case ErrorFailure(message) => Some(message)
    case NonErrorFailure => Some("unknown error")
  }

  /** `sendAlert`: a no-op without a configured webhook URL; never raises. */
  function SendAlert(webhookUrl: Option<string>, alert: Alert, outcome: PostOutcome): (d: Delivery)
    ensures !Present(webhookUrl) <==> d == Skipped
    ensures d.Posted? ==> d.url == webhookUrl.value && d.payload == alert
    ensures d.Posted? ==> (d.failure.None? <==> outcome.Delivered?)
  {
    if !Present(webhookUrl) then Skipped
    else Posted(webhookUrl.value, alert, FailureReason(outcome))
  }

  // ---------------------------------------------------------------------
  // The service object
  // ---------------------------------------------------------------------

  /** The body of an ingest request: one record, or an array of them. */
  datatype Payload = One(record: Telemetry) | Many(records: seq<Telemetry>)

  function Records(p: Payload): seq<Telemetry> {
    match p
    case One(t) => [t]
    case Many(ts) => ts
  }

  /** What `create` returns: the saved record, or the saved array. */
  datatype Created = Single(record: Telemetry) | Batch(records: seq<Telemetry>)

  const CREATE_FAILED := "Failed to create telemetry record(s)"
  const GET_LATEST_FAILED := "Failed to retrieve latest telemetry"
  const NO_DATA := "No telemetry data found"
  const SUMMARY_FAILED := "Failed to retrieve telemetry summary"

  class TelemetryService {
    /** The shared key-value cache, as far as this service uses it. */
    var cache: Cache
    /** The persisted records, in insertion order. */
    var store: seq<Telemetry>

    /** Every cached entry sits under its device's key and is a persisted record. */
    ghost predicate Valid()
      reads this
    {
      CacheConsistent(cache) && forall k :: k in cache ==> cache[k] in store
    }

    constructor ()
      ensures Valid() && cache == map[] && store == []
    {
      cache := map[];
      store := [];
    }

    /**
     * `cacheLatest`: each record of the batch, left to right, refreshes its
     * device's entry when that is absent or older. A failed cache call is
     * logged and skipped, so the method never raises; the store is untouched.
     */
    method CacheLatest(saved: seq<Telemetry>, failed: set<nat>)
      requires Valid()
      requires forall t :: t in saved ==> t in store
      modifies this`cache
      ensures Valid()
      ensures cache == RefreshAll(old(cache), saved, failed)
    {
      var i := 0;
      while i < |saved|
        invariant 0 <= i <= |saved|
        invariant Valid()
        invariant cache == RefreshAll(old(cache), saved[..i], failed)
      {
        assert saved[..i + 1][..i] == saved[..i];
        assert RefreshAll(old(cache), saved[..i + 1], failed)
          == if i in failed then cache else Refresh(cache, saved[i]);
        var key := LatestKey(saved[i].deviceId);
        if i !in failed {
          if key !in cache || saved[i].ts > cache[key].ts {
            cache := cache[key := saved[i]];
          }
        }
        i := i + 1;
      }
      assert saved[..i] == saved;
    }

    /**
     * `create`: persist the records in one write, then refresh the cache and
     * evaluate alerts for each saved record. A failed write raises
     * InternalServerError before any cache or alert work. The result has the
     * input's cardinality.
     */
    method Create(input: Payload, insertFails: bool, cacheFailures: set<nat>)
      returns (r: Result<Created, HttpException>, alerts: seq<Alert>)
      requires Valid()
      modifies this
      ensures Valid()
      ensures insertFails ==>
        r == Failure(InternalServerError(CREATE_FAILED))
        && store == old(store) && cache == old(cache) && alerts == []
      ensures !insertFails ==>
        store == old(store) + Records(input)
        && cache == RefreshAll(old(cache), Records(input), cacheFailures)
        && alerts == BatchAlerts(Records(input))
      ensures !insertFails ==>
        r == Success(match input
                     case One(t) => Single(t)
                     case Many(ts) => Batch(ts))
    {
      var dtos := Records(input);
      if insertFails {
        r, alerts := Failure(InternalServerError(CREATE_FAILED)), [];
        return;
      }
      store := store + dtos;
      var saved := dtos;
      CacheLatest(saved, cacheFailures);
      alerts := [];
      for i := 0 to |saved|
        invariant alerts == BatchAlerts(saved[..i])
      {
        assert saved[..i + 1][..i] == saved[..i];
        alerts := alerts + EvaluateAlerts(saved[i]);
      }
      assert saved[..|saved|] == saved;
      r := Success(if input.Many? then Batch(saved) else Single(saved[0]));
    }

    /**
     * `getLatest`: a cache hit is returned without consulting the store; a
     * miss returns the device's newest stored record and does not write the
     * cache; no record is NotFound; any other failure, including a failed
     * cache read, is InternalServerError.
     */
    function GetLatest(deviceId: string, cacheReadFails: bool, queryFails: bool): (r: Result<Telemetry, HttpException>)
      reads this
      ensures cacheReadFails ==> r == Failure(InternalServerError(GET_LATEST_FAILED))
      ensures !cacheReadFails && LatestKey(deviceId) in cache ==> r == Success(cache[LatestKey(deviceId)])
      ensures !cacheReadFails && LatestKey(deviceId) !in cache && queryFails ==>
        r == Failure(InternalServerError(GET_LATEST_FAILED))
      ensures !cacheReadFails && LatestKey(deviceId) !in cache && !queryFails ==>
        (r.Failure? <==> forall t :: t in store ==> t.deviceId != deviceId)
        && (r.Failure? ==> r.error == NotFound(NO_DATA))
        && (r.Success? ==>
              r.value in store && r.value.deviceId == deviceId
              && forall t :: t in store && t.deviceId == deviceId ==> t.ts <= r.value.ts)
    {
      if cacheReadFails then Failure(InternalServerError(GET_LATEST_FAILED))
      else if LatestKey(deviceId) in cache then Success(cache[LatestKey(deviceId)])
      else if queryFails then Failure(InternalServerError(GET_LATEST_FAILED))
      else match NewestFor(store, deviceId)
        case Some(t) => Success(t)
        case None => Failure(NotFound(NO_DATA))
    }

    /** `getTelemetrySummary`: the aggregate over the matching records, or InternalServerError. */
    function GetTelemetrySummary(siteId: string, from: Option<string>, to: Option<string>,
                                 instant: string -> Option<int>, aggregateFails: bool): (r: Result<SummaryResult, HttpException>)
      reads this
      ensures aggregateFails ==> r == Failure(InternalServerError(SUMMARY_FAILED))
      ensures !aggregateFails ==>
        r.Success?
        && r.value.count == |Matching(store, siteId, from, to, instant)|
        && r.value.uniqueDevices == |Devices(Matching(store, siteId, from, to, instant))|
      ensures !aggregateFails && (forall t :: t in store ==> !Matches(t, siteId, from, to, instant)) ==>
        r == Success(EmptySummary)
    {
      if aggregateFails then Failure(InternalServerError(SUMMARY_FAILED))
      else
        Success(Summarize(Matching(store, siteId, from, to, instant)))
    }
  }
}
