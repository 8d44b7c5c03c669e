/**
 * The device rate-limit hooks: requests are counted per `device-id`
 * header, five per sixty-second window. The counting itself belongs to
 * the throttler base class and is not part of this model.
 */
module DeviceThrottle {
  import opened Results
  import opened HttpErrors

  const DEVICE_ID_HEADER := "device-id"
  const TRACKER_PREFIX := "device_"
  const DEVICE_LIMIT := 5
  const WINDOW_TTL := 60
  const DEVICE_ID_REQUIRED := "Device ID is required"

  /** Request headers, by lower-case name. */
  type Headers = map<string, string>

  function DeviceId(headers: Headers): Option<string> {
    if DEVICE_ID_HEADER in headers then Some(headers[DEVICE_ID_HEADER]) else None
  }

  /** The counter key of a device. */
  function TrackerOf(deviceId: string): string {
    TRACKER_PREFIX + deviceId
  }

  /** The device id behind a counter key. */
  function DeviceOfTracker(tracker: string): string
    requires |tracker| >= |TRACKER_PREFIX|
  {
    tracker[|TRACKER_PREFIX|..]
  }

  /** `getTracker`: a missing or empty header is refused as Unauthorized. */
  function GetTracker(headers: Headers): (r: Result<string, HttpException>)
    ensures r.Success? <==> Present(DeviceId(headers))
    ensures r.Success? ==> r.value == TrackerOf(DeviceId(headers).value)
    ensures r.Failure? ==> r.error == Unauthorized(DEVICE_ID_REQUIRED) && r.error.status == 401
  {
    var deviceId := DeviceId(headers);
    if !Present(deviceId) then Failure(Unauthorized(DEVICE_ID_REQUIRED))
    else Success(TrackerOf(deviceId.value))
  }

  /** `getLimit`: five requests per window for a request that names its device. */
  function GetLimit(headers: Headers): (r: Result<int, HttpException>)
    ensures r.Success? <==> Present(DeviceId(headers))
    ensures r.Success? ==> r.value == DEVICE_LIMIT
    ensures r.Failure? ==> r.error == Unauthorized(DEVICE_ID_REQUIRED)
  {
    var deviceId := DeviceId(headers);
    if !Present(deviceId) then Failure(Unauthorized(DEVICE_ID_REQUIRED))
    else Success(DEVICE_LIMIT)
  }

  /** `getTTL`: the window length, the same for every request. */
  function GetTtl(): (ttl: int)
    ensures ttl > 0 && ttl == WINDOW_TTL
  {
    WINDOW_TTL
  }

  /** A counter key gives back its device id. */
  lemma TrackerRoundTrip(deviceId: string)
    ensures |TrackerOf(deviceId)| >= |TRACKER_PREFIX|
    ensures DeviceOfTracker(TrackerOf(deviceId)) == deviceId
  {
    assert TrackerOf(deviceId)[|TRACKER_PREFIX|..] == deviceId;
  }

  /** Distinct devices are counted under distinct keys. */
  lemma TrackerInjective(a: string, b: string)
    ensures TrackerOf(a) == TrackerOf(b) <==> a == b
  {
    TrackerRoundTrip(a);
    TrackerRoundTrip(b);
  }

  /** Two requests share a counter exactly when they name the same device. */
  lemma SameCounterSameDevice(h1: Headers, h2: Headers)
    requires GetTracker(h1).Success? && GetTracker(h2).Success?
    ensures GetTracker(h1) == GetTracker(h2) <==> DeviceId(h1) == DeviceId(h2)
  {
    TrackerInjective(DeviceId(h1).value, DeviceId(h2).value);
  }

  /** The limit and the tracker refuse the same requests, with the same error. */
  lemma LimitAgreesWithTracker(headers: Headers)
    ensures GetLimit(headers).Success? <==> GetTracker(headers).Success?
    ensures GetLimit(headers).Failure? ==> GetLimit(headers).error == GetTracker(headers).error
  {
  }
}
