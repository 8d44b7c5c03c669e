/**
 * The response-cache interceptor: route-specific cache keys for the two
 * telemetry read routes, and the write of a handler's response under that
 * key. The parent interceptor's own key and its own interception are not
 * part of this model; its key enters as a parameter.
 */
module CacheInterceptor {
  import opened Results
  import opened UriEncoding
  import Service

  /** A query-string value as the query parser hands it over. */
  datatype QueryValue = QText(text: string) | QList(items: seq<string>) | QObject

  datatype Request = Request(
    verb: string,
    path: string,
    params: map<string, string>,
    query: map<string, QueryValue>)

  /** `String.prototype.includes`: `part` occurs in `s` at some index. */
  function Contains(s: string, part: string): bool {
    OccursFrom(s, part, 0)
  }

  /** `part` occurs in `s` at index `i` or later. */
  function OccursFrom(s: string, part: string, i: nat): bool
    decreases |s| - i
  {
    i + |part| <= |s| && (s[i..i + |part|] == part || OccursFrom(s, part, i + 1))
  }

  /** An occurrence at index `i` is found by a search starting at or before `i`. */
  lemma {:induction false} OccursAtFrom(s: string, part: string, i: nat, j: nat)
    requires j <= i && i + |part| <= |s| && s[i..i + |part|] == part
    ensures OccursFrom(s, part, j)
    decreases i - j
  {
    if j < i {
      OccursAtFrom(s, part, i, j + 1);
    }
  }

  /** If character `k` of `part` never appears where it would have to, the search fails. */
  lemma {:induction false} AbsentFrom(s: string, part: string, k: nat, j: nat)
    requires k < |part| <= |s|
    requires forall i :: j + k <= i <= |s| - |part| + k ==> s[i] != part[k]
    ensures !OccursFrom(s, part, j)
    decreases |s| - j
  {
    if j + |part| <= |s| {
      assert s[j..j + |part|][k] == s[j + k];
      AbsentFrom(s, part, k, j + 1);
    }
  }

  /** `!s.includes(part)` when character `k` of `part` is missing from the window it would occupy. */
  lemma NoOccurrence(s: string, part: string, k: nat)
    requires k < |part| <= |s|
    requires part[k] !in s[k..|s| - |part| + k + 1]
    ensures !Contains(s, part)
  {
    forall i | k <= i <= |s| - |part| + k
      ensures s[i] != part[k]
    {
      assert s[i] == s[k..|s| - |part| + k + 1][i - k];
    }
    AbsentFrom(s, part, k, 0);
  }

  /** `request.params[name] || ''`. */
  function ParamText(req: Request, name: string): string {
    if name in req.params then req.params[name] else ""
  }

  /** `items.join(',')`, which is what `String(array)` gives. */
  function JoinWithCommas(items: seq<string>): string {
    if items == [] then ""
    else if |items| == 1 then items[0]
    else items[0] + "," + JoinWithCommas(items[1..])
  }

  /**
   * `(request.query[name] as string) || ''` handed to `encodeURIComponent`,
   * which first converts its argument to a string.
   */
  function QueryText(req: Request, name: string): string {
    if name !in req.query then ""
    else match req.query[name]
      case QText(t) => t
      case QList(items) => JoinWithCommas(items)
      case QObject => "[object Object]"
  }

  const SUMMARY_PREFIX := "summary:"
  const LATEST_ROUTE_PREFIX := "latest:"

  /** `${a}:${b}`. */
  function ColonJoin(a: string, b: string): string {
    a + ":" + b
  }

  /** `summary:${siteId}:${from}:${to}`, each component encoded. */
  function SummaryKey(siteId: string, from: string, to: string): string {
    SUMMARY_PREFIX
      + ColonJoin(EncodeURIComponent(siteId), ColonJoin(EncodeURIComponent(from), EncodeURIComponent(to)))
  }

  function LatestRouteKey(deviceId: string): string {
    LATEST_ROUTE_PREFIX + EncodeURIComponent(deviceId)
  }

  predicate IsSummaryRoute(path: string) {
    Contains(path, "site") && Contains(path, "summary")
  }

  predicate IsLatestRoute(path: string) {
    Contains(path, "device") && Contains(path, "latest")
  }

  /**
   * `trackBy`: no key for a non-GET request; the summary key when the path
   * mentions both `site` and `summary` (tested first); the latest key when it
   * mentions both `device` and `latest`; otherwise the parent's key.
   */
  function TrackBy(req: Request, parentKey: Option<string>): (key: Option<string>)
    ensures req.verb != "GET" ==> key == None
    ensures req.verb == "GET" && IsSummaryRoute(req.path) ==>
      key == Some(SummaryKey(ParamText(req, "siteId"), QueryText(req, "from"), QueryText(req, "to")))
    ensures req.verb == "GET" && !IsSummaryRoute(req.path) && IsLatestRoute(req.path) ==>
      key == Some(LatestRouteKey(ParamText(req, "deviceId")))
    ensures req.verb == "GET" && !IsSummaryRoute(req.path) && !IsLatestRoute(req.path) ==>
      key == parentKey
  {
    if req.verb != "GET" then None
    else if IsSummaryRoute(req.path) then
      Some(SummaryKey(ParamText(req, "siteId"), QueryText(req, "from"), QueryText(req, "to")))
    else if IsLatestRoute(req.path) then
      Some(LatestRouteKey(ParamText(req, "deviceId")))
    else parentKey
  }

  // ---------------------------------------------------------------------
  // Keys are collision-free
  // ---------------------------------------------------------------------

  predicate ColonFree(s: string) {
    forall i :: 0 <= i < |s| ==> s[i] != ':'
  }

  /** Splitting at the first colon recovers both halves. */
  lemma SplitAtColon(x: string, y: string, x': string, y': string)
    requires ColonFree(x) && ColonFree(x')
    requires ColonJoin(x, y) == ColonJoin(x', y')
    ensures x == x' && y == y'
  {
    var s := ColonJoin(x, y);
    assert forall i :: 0 <= i < |x| ==> s[i] == x[i];
    assert forall i :: 0 <= i < |x'| ==> s[i] == x'[i];
    assert s[|x|] == ':' && s[|x'|] == ':';
    assert |x| == |x'|;
    assert x == s[..|x|] && x' == s[..|x'|];
    assert y == s[|x| + 1..] && y' == s[|x'| + 1..];
  }

  lemma PrefixCancels(p: string, a: string, b: string)
    requires p + a == p + b
    ensures a == b
  {
    assert a == (p + a)[|p|..];
    assert b == (p + b)[|p|..];
  }

  /** Distinct (siteId, from, to) triples give distinct summary keys. */
  lemma SummaryKeyInjective(siteId: string, from: string, to: string, siteId': string, from': string, to': string)
    ensures SummaryKey(siteId, from, to) == SummaryKey(siteId', from', to') <==>
      siteId == siteId' && from == from' && to == to'
  {
    if SummaryKey(siteId, from, to) == SummaryKey(siteId', from', to') {
      var s, f, t := EncodeURIComponent(siteId), EncodeURIComponent(from), EncodeURIComponent(to);
      var s', f', t' := EncodeURIComponent(siteId'), EncodeURIComponent(from'), EncodeURIComponent(to');
      PrefixCancels(SUMMARY_PREFIX, ColonJoin(s, ColonJoin(f, t)), ColonJoin(s', ColonJoin(f', t')));
      SplitAtColon(s, ColonJoin(f, t), s', ColonJoin(f', t'));
      SplitAtColon(f, t, f', t');
      EncodeInjective(siteId, siteId');
      EncodeInjective(from, from');
      EncodeInjective(to, to');
    }
  }

  /** Distinct device ids give distinct latest-route keys. */
  lemma LatestRouteKeyInjective(deviceId: string, deviceId': string)
    ensures LatestRouteKey(deviceId) == LatestRouteKey(deviceId') <==> deviceId == deviceId'
  {
    if LatestRouteKey(deviceId) == LatestRouteKey(deviceId') {
      assert EncodeURIComponent(deviceId) == LatestRouteKey(deviceId)[|LATEST_ROUTE_PREFIX|..];
      assert EncodeURIComponent(deviceId') == LatestRouteKey(deviceId')[|LATEST_ROUTE_PREFIX|..];
      EncodeInjective(deviceId, deviceId');
    }
  }

  /**
   * The route keys (`summary:`, `latest:`) never coincide with each other or
   * with the service's `latestTelemetry:` keys.
   */
  lemma NamespacesDisjoint(siteId: string, from: string, to: string, deviceId: string, device: string)
    ensures SummaryKey(siteId, from, to) != LatestRouteKey(deviceId)
    ensures SummaryKey(siteId, from, to) != Service.LatestKey(device)
    ensures LatestRouteKey(deviceId) != Service.LatestKey(device)
  {
    assert SummaryKey(siteId, from, to)[0] == 's';
    assert LatestRouteKey(deviceId)[0] == 'l' && LatestRouteKey(deviceId)[6] == ':';
    assert Service.LatestKey(device)[0] == 'l' && Service.LatestKey(device)[6] == 'T';
  }

  /** The route keys are never empty, so `intercept` always serves those routes itself. */
  lemma RouteKeysPresent(req: Request, parentKey: Option<string>)
    requires req.verb == "GET" && (IsSummaryRoute(req.path) || IsLatestRoute(req.path))
    ensures Present(TrackBy(req, parentKey))
  {
  }

  // The expected keys of the interceptor's unit tests.

  lemma NonGetHasNoKey()
    ensures TrackBy(Request("POST", "/api/v1/site/site-A/summary", map["siteId" := "site-A"],
                            map["from" := QText("2025-10-01"), "to" := QText("2025-09-30")]), Some("super-key")) == None
  {
  }

  /** Components made of unreserved characters appear in the summary key verbatim. */
  lemma SummaryKeyVerbatim(siteId: string, from: string, to: string)
    requires forall i :: 0 <= i < |siteId| ==> Unreserved(siteId[i])
    requires forall i :: 0 <= i < |from| ==> Unreserved(from[i])
    requires forall i :: 0 <= i < |to| ==> Unreserved(to[i])
    ensures SummaryKey(siteId, from, to) == SUMMARY_PREFIX + siteId + ":" + from + ":" + to
  {
    EncodeUnreserved(siteId);
    EncodeUnreserved(from);
    EncodeUnreserved(to);
  }

  lemma DeviceKeyOfExample()
    ensures LatestRouteKey("dev-2") == "latest:dev-2"
  {
    EncodeUnreserved("dev-2");
  }

  // Facts about the example paths, one substring per lemma: each search over
  // a literal path is proved in a context of its own.

  lemma SitePathNamesSite()
    ensures Contains("/api/v1/site/site-A/summary", "site")
  {
    OccursAtFrom("/api/v1/site/site-A/summary", "site", 8, 0);
  }

  lemma SitePathNamesSummary()
    ensures Contains("/api/v1/site/site-A/summary", "summary")
  {
    OccursAtFrom("/api/v1/site/site-A/summary", "summary", 20, 0);
  }

  lemma ShortSitePathNamesSite()
    ensures Contains("/api/v1/site/summary", "site")
  {
    OccursAtFrom("/api/v1/site/summary", "site", 8, 0);
  }

  lemma ShortSitePathNamesSummary()
    ensures Contains("/api/v1/site/summary", "summary")
  {
    OccursAtFrom("/api/v1/site/summary", "summary", 13, 0);
  }

  lemma DevicePathNamesDevice()
    ensures Contains("/api/v1/device/dev-2/latest", "device")
  {
    OccursAtFrom("/api/v1/device/dev-2/latest", "device", 8, 0);
  }

  lemma DevicePathNamesLatest()
    ensures Contains("/api/v1/device/dev-2/latest", "latest")
  {
    OccursAtFrom("/api/v1/device/dev-2/latest", "latest", 21, 0);
  }

  lemma ShortDevicePathNamesDevice()
    ensures Contains("/api/v1/device/latest", "device")
  {
    OccursAtFrom("/api/v1/device/latest", "device", 8, 0);
  }

  lemma ShortDevicePathNamesLatest()
    ensures Contains("/api/v1/device/latest", "latest")
  {
    OccursAtFrom("/api/v1/device/latest", "latest", 15, 0);
  }

  lemma DevicePathLacksSite()
    ensures !Contains("/api/v1/device/dev-2/latest", "site")
  {
    var path := "/api/v1/device/dev-2/latest";
    assert 's' !in path[0..24];
    NoOccurrence(path, "site", 0);
  }

  lemma ShortDevicePathLacksSite()
    ensures !Contains("/api/v1/device/latest", "site")
  {
    var path := "/api/v1/device/latest";
    assert 's' !in path[0..18];
    NoOccurrence(path, "site", 0);
  }

  lemma UsersPathLacksSite()
    ensures !Contains("/api/v1/users", "site")
  {
    var path := "/api/v1/users";
    assert 't' !in path;
    NoOccurrence(path, "site", 2);
  }

  lemma UsersPathLacksDevice()
    ensures !Contains("/api/v1/users", "device")
  {
    var path := "/api/v1/users";
    assert 'd' !in path;
    NoOccurrence(path, "device", 0);
  }

  lemma SitePathIsSummaryRoute()
    ensures IsSummaryRoute("/api/v1/site/site-A/summary")
  {
    SitePathNamesSite();
    SitePathNamesSummary();
  }

  lemma ShortSitePathIsSummaryRoute()
    ensures IsSummaryRoute("/api/v1/site/summary")
  {
    ShortSitePathNamesSite();
    ShortSitePathNamesSummary();
  }

  lemma DevicePathIsLatestRoute()
    ensures !IsSummaryRoute("/api/v1/device/dev-2/latest") && IsLatestRoute("/api/v1/device/dev-2/latest")
  {
    DevicePathLacksSite();
    DevicePathNamesDevice();
    DevicePathNamesLatest();
  }

  lemma ShortDevicePathIsLatestRoute()
    ensures !IsSummaryRoute("/api/v1/device/latest") && IsLatestRoute("/api/v1/device/latest")
  {
    ShortDevicePathLacksSite();
    ShortDevicePathNamesDevice();
    ShortDevicePathNamesLatest();
  }

  lemma UsersPathIsNeitherRoute()
    ensures !IsSummaryRoute("/api/v1/users") && !IsLatestRoute("/api/v1/users")
  {
    UsersPathLacksSite();
    UsersPathLacksDevice();
  }

  lemma SummaryKeyExample()
    ensures TrackBy(Request("GET", "/api/v1/site/site-A/summary", map["siteId" := "site-A"],
                            map["from" := QText("2025-10-01"), "to" := QText("2025-09-30")]), None)
            == Some(SummaryKey("site-A", "2025-10-01", "2025-09-30"))
  {
    SitePathIsSummaryRoute();
  }

  lemma LatestKeyExample()
    ensures TrackBy(Request("GET", "/api/v1/device/dev-2/latest", map["deviceId" := "dev-2"], map[]), None)
            == Some("latest:dev-2")
  {
    DevicePathIsLatestRoute();
    DeviceKeyOfExample();
  }

  lemma OtherRouteUsesParentKey()
    ensures TrackBy(Request("GET", "/api/v1/users", map[], map["q" := QText("x")]), Some("super-key"))
            == Some("super-key")
  {
    UsersPathIsNeitherRoute();
  }

  lemma LatestKeyWithoutParam()
    ensures TrackBy(Request("GET", "/api/v1/device/latest", map[], map[]), None) == Some("latest:")
  {
    var req := Request("GET", "/api/v1/device/latest", map[], map[]);
    ShortDevicePathIsLatestRoute();
    assert ParamText(req, "deviceId") == "";
    assert LatestRouteKey("") == "latest:";
  }

  lemma SummaryKeyWithoutParam()
    ensures TrackBy(Request("GET", "/api/v1/site/summary", map[],
                            map["from" := QText("2025-01-01"), "to" := QText("2025-01-31")]), None)
            == Some(SummaryKey("", "2025-01-01", "2025-01-31"))
  {
    ShortSitePathIsSummaryRoute();
  }

  // ---------------------------------------------------------------------
  // The cache write in `intercept`
  // ---------------------------------------------------------------------

  const DEFAULT_TTL := 60

  /** The handler's TTL metadata, or 60 when it has none (`??` keeps a 0). */
  function EffectiveTtl(metadata: Option<int>): int {
    metadata.GetOr(DEFAULT_TTL)
  }

  /** What the route handler produced: a response, or an error it raised. */
  datatype Handled<D, E> = Emitted(data: D) | Raised(error: E)

  /** What `intercept` hands back. */
  datatype Intercepted<D, E> = Delegated | Responded(outcome: Handled<D, E>)

  datatype CacheEntry<D> = CacheEntry(data: D, ttl: int)

  class ResponseCache<D, E> {
    /** The response-cache entries, by key. */
    var entries: map<string, CacheEntry<D>>

    constructor ()
      ensures entries == map[]
    {
      entries := map[];
    }

    /**
     * `intercept`: without a key (or with an empty one, which is falsy), the
     * parent handles the request. With a key, the handler's response is
     * stored under it with the effective TTL and passed on; a failed cache
     * write only gets logged; a handler error is passed on unchanged and
     * nothing is stored.
     */
    method Intercept(req: Request, parentKey: Option<string>, ttlMetadata: Option<int>,
                     handled: Handled<D, E>, setFails: bool) returns (r: Intercepted<D, E>)
      modifies this
      ensures !Present(TrackBy(req, parentKey)) ==> r == Delegated && entries == old(entries)
      ensures Present(TrackBy(req, parentKey)) ==> r == Responded(handled)
      ensures Present(TrackBy(req, parentKey)) && handled.Emitted? && !setFails ==>
        entries == old(entries)[TrackBy(req, parentKey).value := CacheEntry(handled.data, EffectiveTtl(ttlMetadata))]
      ensures (handled.Raised? || setFails) ==> entries == old(entries)
    {
      var cacheKey := TrackBy(req, parentKey);
      if !Present(cacheKey) {
        return Delegated;
      }
      var ttl := EffectiveTtl(ttlMetadata);
      match handled {
        case Emitted(data) =>
          if !setFails {
            entries := entries[cacheKey.value := CacheEntry(data, ttl)];
          }
        case Raised(_) =>
      }
      r := Responded(handled);
    }

    /**
     * `intercept` as the read-through design expects it: a response already
     * stored under the request's key is returned without invoking the
     * handler; on a miss the handler runs and its response is stored, as in
     * `Intercept`. TTL expiry is not modelled, so a stored entry is a hit.
     */
    method InterceptReadThrough(req: Request, parentKey: Option<string>, ttlMetadata: Option<int>,
                                handled: Handled<D, E>, setFails: bool) returns (r: Intercepted<D, E>)
      modifies this
      ensures !Present(TrackBy(req, parentKey)) ==> r == Delegated && entries == old(entries)
      ensures Present(TrackBy(req, parentKey)) && TrackBy(req, parentKey).value in old(entries) ==>
        r == Responded(Emitted(old(entries)[TrackBy(req, parentKey).value].data)) && entries == old(entries)
      ensures Present(TrackBy(req, parentKey)) && TrackBy(req, parentKey).value !in old(entries) ==>
        r == Responded(handled)
      ensures Present(TrackBy(req, parentKey)) && TrackBy(req, parentKey).value !in old(entries)
              && handled.Emitted? && !setFails ==>
        entries == old(entries)[TrackBy(req, parentKey).value := CacheEntry(handled.data, EffectiveTtl(ttlMetadata))]
      ensures (handled.Raised? || setFails) ==> entries == old(entries)
    {
      var cacheKey := TrackBy(req, parentKey);
      if Present(cacheKey) && cacheKey.value in entries {
        return Responded(Emitted(entries[cacheKey.value].data));
      }
      r := Intercept(req, parentKey, ttlMetadata, handled, setFails);
    }
  }

  /** The device route of the interceptor's own examples. */
  function DeviceRequest(): Request {
    Request("GET", "/api/v1/device/dev-2/latest", map["deviceId" := "dev-2"], map[])
  }

  /**
   * Two requests for the latest reading of `dev-2`, the handler answering 1
   * and then 2: as written, the first answer is stored and the second
   * request still runs the handler and gets 2.
   */
  method StoredResponseNotServed() returns (stored: Option<int>, second: Intercepted<int, string>)
    ensures stored == Some(1) && second == Responded(Emitted(2))
  {
    LatestKeyExample();
    var cache := new ResponseCache<int, string>();
    var first := cache.Intercept(DeviceRequest(), None, None, Emitted(1), false);
    stored := if "latest:dev-2" in cache.entries then Some(cache.entries["latest:dev-2"].data) else None;
    second := cache.Intercept(DeviceRequest(), None, None, Emitted(2), false);
  }

  /** The same two requests with the read-through interceptor: the second gets the stored 1. */
  method StoredResponseServed() returns (stored: Option<int>, second: Intercepted<int, string>)
    ensures stored == Some(1) && second == Responded(Emitted(1))
  {
    LatestKeyExample();
    var cache := new ResponseCache<int, string>();
    var first := cache.InterceptReadThrough(DeviceRequest(), None, None, Emitted(1), false);
    stored := if "latest:dev-2" in cache.entries then Some(cache.entries["latest:dev-2"].data) else None;
    second := cache.InterceptReadThrough(DeviceRequest(), None, None, Emitted(2), false);
  }
}
