/**
 * The endpoint-parameter guard: it reads `siteId` and `deviceId` from the
 * route parameters and `from` and `to` from the query string, keeps only
 * string values, and lets the request through or raises BadRequest.
 */
module ParamsGuard {
  import opened Results
  import opened HttpErrors
  import opened ParamPatterns

  /** A route-parameter or query-string value: a string, or anything else (an array, an object). */
  datatype Value = Str(s: string) | NonString

  datatype Request = Request(params: map<string, Value>, query: map<string, Value>)

  /** `typeof v === 'string' ? v : undefined`. */
  function StringField(m: map<string, Value>, name: string): (r: Option<string>)
    ensures r.Some? <==> name in m && m[name].Str?
    ensures r.Some? ==> m[name] == Str(r.value)
  {
    if name in m && m[name].Str? then Some(m[name].s) else None
  }

  function SiteIdOf(req: Request): Option<string> { StringField(req.params, "siteId") }
  function DeviceIdOf(req: Request): Option<string> { StringField(req.params, "deviceId") }
  function FromOf(req: Request): Option<string> { StringField(req.query, "from") }
  function ToOf(req: Request): Option<string> { StringField(req.query, "to") }

  const INVALID_SITE_ID := "Invalid siteId"
  const INVALID_DATES := "Dates must be valid ISO timestamps"
  const DATES_OUT_OF_ORDER := "Starting Date must be before the Ending Date"
  const INVALID_DEVICE_ID := "Invalid deviceId"

  function GuardMessage(c: Check): string {
    match c
    case SiteFormat => INVALID_SITE_ID
    case DateFormat => INVALID_DATES
    case DateOrder => DATES_OUT_OF_ORDER
    case DeviceFormat => INVALID_DEVICE_ID
  }

  /**
   * `canActivate`: the checks in their order, each raising BadRequest with
   * its own message; `true` when every check passes.
   */
  function CanActivate(req: Request, parse: string -> Option<int>): (r: Result<bool, HttpException>)
    ensures r.Success? <==> ValidParams(SiteIdOf(req), DeviceIdOf(req), FromOf(req), ToOf(req), parse)
    ensures r.Success? ==> r.value
    ensures r.Failure? ==>
      var v := FirstViolation(SiteIdOf(req), DeviceIdOf(req), FromOf(req), ToOf(req), parse);
      v.Some? && r.error == BadRequest(GuardMessage(v.value))
  {
    var siteId, deviceId, from, to := SiteIdOf(req), DeviceIdOf(req), FromOf(req), ToOf(req);
    if Present(siteId) && !MatchesSiteId(siteId.value) then
      Failure(BadRequest(INVALID_SITE_ID))
    else if Present(siteId) && !(Present(from) && Present(to) && IsIsoDate(from.value, parse) && IsIsoDate(to.value, parse)) then
      Failure(BadRequest(INVALID_DATES))
    else if Present(siteId) && !(parse(from.value).value <= parse(to.value).value) then
      Failure(BadRequest(DATES_OUT_OF_ORDER))
    else if Present(deviceId) && !MatchesDeviceId(deviceId.value) then
      Failure(BadRequest(INVALID_DEVICE_ID))
    else
      Success(true)
  }

  /** A malformed `siteId` is reported even when `deviceId` is malformed too. */
  lemma SiteErrorFirst(req: Request, parse: string -> Option<int>)
    requires Present(SiteIdOf(req)) && !MatchesSiteId(SiteIdOf(req).value)
    ensures CanActivate(req, parse) == Failure(BadRequest(INVALID_SITE_ID))
  {
  }

  /** A request without a `siteId` passes with any dates, or none, if its `deviceId` is well formed. */
  lemma DeviceOnlyIgnoresDates(req: Request, parse: string -> Option<int>)
    requires !Present(SiteIdOf(req))
    requires Present(DeviceIdOf(req)) && MatchesDeviceId(DeviceIdOf(req).value)
    ensures CanActivate(req, parse) == Success(true)
  {
  }

  /** Equal instants are accepted: the order check is `<=`. */
  lemma EqualBoundsAccepted(site: string, from: string, to: string, parse: string -> Option<int>)
    requires MatchesSiteId(site) && from != "" && to != ""
    requires parse(from).Some? && parse(from) == parse(to)
    ensures CanActivate(Request(map["siteId" := Str(site)], map["from" := Str(from), "to" := Str(to)]), parse)
            == Success(true)
  {
    var req := Request(map["siteId" := Str(site)], map["from" := Str(from), "to" := Str(to)]);
    assert SiteIdOf(req) == Some(site) && DeviceIdOf(req) == None;
    assert FromOf(req) == Some(from) && ToOf(req) == Some(to);
  }

  /** A non-string `siteId` (an array from a repeated parameter, say) is treated as absent. */
  lemma NonStringIsAbsent(req: Request, parse: string -> Option<int>)
    requires "siteId" in req.params && req.params["siteId"] == NonString
    ensures CanActivate(req, parse) == CanActivate(Request(req.params - {"siteId"}, req.query), parse)
  {
    var req' := Request(req.params - {"siteId"}, req.query);
    assert SiteIdOf(req) == None == SiteIdOf(req');
    assert DeviceIdOf(req) == DeviceIdOf(req');
  }
}
