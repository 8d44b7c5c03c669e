/**
 * The endpoint-parameter pipe: the same checks as the guard over an
 * `EndpointParams` value whose fields are strings or absent, with its own
 * messages; on success it returns its input unchanged.
 */
module ParamsPipe {
  import opened Results
  import opened HttpErrors
  import opened ParamPatterns
  import ParamsGuard

  datatype EndpointParams = EndpointParams(
    siteId: Option<string>,
    deviceId: Option<string>,
    from: Option<string>,
    to: Option<string>)

  const INVALID_SITE_ID := "Invalid siteId"
  const INVALID_DATES := "from/to must be valid ISO timestamps"
  const DATES_OUT_OF_ORDER := "from must be before to"
  const INVALID_DEVICE_ID := "Invalid deviceId"

  function PipeMessage(c: Check): string {
    match c
    case SiteFormat => INVALID_SITE_ID
    case DateFormat => INVALID_DATES
    case DateOrder => DATES_OUT_OF_ORDER
    case DeviceFormat => INVALID_DEVICE_ID
  }

  /** `transform`. */
  function Transform(value: EndpointParams, parse: string -> Option<int>): (r: Result<EndpointParams, HttpException>)
    ensures r.Success? <==> ValidParams(value.siteId, value.deviceId, value.from, value.to, parse)
    ensures r.Success? ==> r.value == value
    ensures r.Failure? ==>
      var v := FirstViolation(value.siteId, value.deviceId, value.from, value.to, parse);
      v.Some? && r.error == BadRequest(PipeMessage(v.value))
  {
    var EndpointParams(siteId, deviceId, from, to) := value;
    if Present(siteId) && !MatchesSiteId(siteId.value) then
      Failure(BadRequest(INVALID_SITE_ID))
    else if Present(siteId) && !(Present(from) && Present(to) && IsIsoDate(from.value, parse) && IsIsoDate(to.value, parse)) then
      Failure(BadRequest(INVALID_DATES))
    else if Present(siteId) && !(parse(from.value).value <= parse(to.value).value) then
      Failure(BadRequest(DATES_OUT_OF_ORDER))
    else if Present(deviceId) && !MatchesDeviceId(deviceId.value) then
      Failure(BadRequest(INVALID_DEVICE_ID))
    else
      Success(value)
  }

  /** The string-valued fields the guard reads from a request. */
  function ParamsOf(req: ParamsGuard.Request): EndpointParams {
    EndpointParams(ParamsGuard.SiteIdOf(req), ParamsGuard.DeviceIdOf(req),
                   ParamsGuard.FromOf(req), ParamsGuard.ToOf(req))
  }

  /**
   * The guard and the pipe accept the same requests and reject the others
   * at the same check, each with status 400; only the two date messages differ.
   */
  lemma GuardAndPipeAgree(req: ParamsGuard.Request, parse: string -> Option<int>)
    ensures ParamsGuard.CanActivate(req, parse).Success? <==> Transform(ParamsOf(req), parse).Success?
    ensures ParamsGuard.CanActivate(req, parse).Failure? ==>
      var c := FirstViolation(ParamsGuard.SiteIdOf(req), ParamsGuard.DeviceIdOf(req),
                              ParamsGuard.FromOf(req), ParamsGuard.ToOf(req), parse).value;
      ParamsGuard.CanActivate(req, parse).error == BadRequest(ParamsGuard.GuardMessage(c))
      && Transform(ParamsOf(req), parse).error == BadRequest(PipeMessage(c))
      && ParamsGuard.CanActivate(req, parse).error.status == Transform(ParamsOf(req), parse).error.status == BAD_REQUEST
  {
  }

  /** Where the two stages differ in wording, they differ only in the date messages. */
  lemma SameIdentifierMessages(c: Check)
    ensures ParamsGuard.GuardMessage(c) == PipeMessage(c) <==> c == SiteFormat || c == DeviceFormat
  {
  }
}
