/**
 * The rules shared by the endpoint-parameter guard and pipe: the two
 * identifier patterns, and which combination of `siteId`, `deviceId`,
 * `from` and `to` is acceptable.
 *
 * `Date.parse` (and `new Date(s).getTime()`, which parses the same way) is
 * a parameter: `None` stands for `NaN`.
 */
module ParamPatterns {
  import opened Results

  predicate IsUpperLetter(c: char) { 'A' <= c <= 'Z' }

  /** `\d` of a JavaScript regular expression without the `u` flag. */
  predicate IsDigit(c: char) { '0' <= c <= '9' }

  predicate AllDigits(s: string) {
    forall i :: 0 <= i < |s| ==> IsDigit(s[i])
  }

  const SITE_PREFIX := "site-"
  const DEVICE_PREFIX := "dev-"

  /** `/^site-[A-Z]$/.test(s)`, read position by position. */
  predicate MatchesSiteId(s: string) {
    |s| == 6 && s[..5] == SITE_PREFIX && IsUpperLetter(s[5])
  }

  /** `/^dev-\d+$/.test(s)`, read position by position. */
  predicate MatchesDeviceId(s: string) {
    |s| > 4 && s[..4] == DEVICE_PREFIX && AllDigits(s[4..])
  }

  /** The site ids are exactly `site-` followed by one capital letter. */
  lemma SiteIdShape(s: string)
    ensures MatchesSiteId(s) <==> exists c :: IsUpperLetter(c) && s == SITE_PREFIX + [c]
  {
    if MatchesSiteId(s) {
      assert s == SITE_PREFIX + [s[5]];
    }
  }

  /** The device ids are exactly `dev-` followed by one or more digits. */
  lemma DeviceIdShape(s: string)
    ensures MatchesDeviceId(s) <==> exists d :: d != "" && AllDigits(d) && s == DEVICE_PREFIX + d
  {
    if MatchesDeviceId(s) {
      assert s == DEVICE_PREFIX + s[4..];
    }
    if exists d :: d != "" && AllDigits(d) && s == DEVICE_PREFIX + d {
      var d :| d != "" && AllDigits(d) && s == DEVICE_PREFIX + d;
      assert s[..4] == DEVICE_PREFIX && s[4..] == d;
    }
  }

  /** No string is both a site id and a device id. */
  lemma PatternsDisjoint(s: string)
    ensures !(MatchesSiteId(s) && MatchesDeviceId(s))
  {
    assert MatchesSiteId(s) ==> s[0] == s[..5][0] == 's';
    assert MatchesDeviceId(s) ==> s[0] == s[..4][0] == 'd';
  }

  /** What `isISODate` accepts: `!isNaN(Date.parse(s))`. */
  predicate IsIsoDate(s: string, parse: string -> Option<int>) {
    parse(s).Some?
  }

  /** The checks the guard and the pipe make, in the order they make them. */
  datatype Check = SiteFormat | DateFormat | DateOrder | DeviceFormat

  /** Both bounds are given and parse. */
  predicate DatesGiven(from: Option<string>, to: Option<string>, parse: string -> Option<int>) {
    Present(from) && Present(to) && IsIsoDate(from.value, parse) && IsIsoDate(to.value, parse)
  }

  /**
   * The parameters are acceptable: a given `siteId` has the site pattern and
   * comes with two parseable bounds in order (equal instants allowed); a
   * given `deviceId` has the device pattern. Empty strings count as absent.
   */
  predicate ValidParams(siteId: Option<string>, deviceId: Option<string>,
                        from: Option<string>, to: Option<string>, parse: string -> Option<int>)
  {
    (Present(siteId) ==>
      MatchesSiteId(siteId.value)
      && DatesGiven(from, to, parse)
      && parse(from.value).value <= parse(to.value).value)
    && (Present(deviceId) ==> MatchesDeviceId(deviceId.value))
  }

  /** The first check that rejects the parameters, if any. */
  function FirstViolation(siteId: Option<string>, deviceId: Option<string>,
                          from: Option<string>, to: Option<string>, parse: string -> Option<int>): (v: Option<Check>)
    ensures v.None? <==> ValidParams(siteId, deviceId, from, to, parse)
    ensures v == Some(SiteFormat) <==> Present(siteId) && !MatchesSiteId(siteId.value)
    ensures v == Some(DeviceFormat) ==> !Present(siteId) || ValidParams(siteId, None, from, to, parse)
  {
    if Present(siteId) && !MatchesSiteId(siteId.value) then Some(SiteFormat)
    else if Present(siteId) && !DatesGiven(from, to, parse) then Some(DateFormat)
    else if Present(siteId) && parse(from.value).value > parse(to.value).value then Some(DateOrder)
    else if Present(deviceId) && !MatchesDeviceId(deviceId.value) then Some(DeviceFormat)
    else None
  }

  /** Without a `siteId`, the dates are not looked at. */
  lemma DatesIgnoredWithoutSite(deviceId: Option<string>, from: Option<string>, to: Option<string>,
                                from': Option<string>, to': Option<string>, parse: string -> Option<int>)
    ensures FirstViolation(None, deviceId, from, to, parse) == FirstViolation(None, deviceId, from', to', parse)
    ensures FirstViolation(Some(""), deviceId, from, to, parse) == FirstViolation(None, deviceId, from, to, parse)
  {
  }
}
