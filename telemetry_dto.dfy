/**
 * The ingestion DTO without length bounds: non-empty string ids, an
 * ISO 8601 timestamp, and metrics validated as a nested `Metric`. The
 * ISO 8601 check is a parameter.
 */
module TelemetryDto {
  import opened Results
  import opened Json

  const DTO_FIELDS := {"deviceId", "siteId", "ts", "metrics"}
  const METRIC_FIELDS := {"temperature", "humidity"}

  /** `Metric`: both readings are numbers (`@IsNumber()`, `@IsNotEmpty()`), nothing else is present. */
  predicate ValidMetric(fields: map<string, Json>) {
    OnlyDeclared(fields, METRIC_FIELDS)
    && IsNumber(Field(fields, "temperature")) && IsNotEmpty(Field(fields, "temperature"))
    && IsNumber(Field(fields, "humidity")) && IsNotEmpty(Field(fields, "humidity"))
  }

  /**
   * `@ValidateNested()` over `Metric`: an object is validated as a Metric,
   * an array element by element (nested arrays too), anything else fails.
   */
  predicate NestedMetric(v: Json) {
    match v
    case JObject(fields) => ValidMetric(fields)
    case JArray(items) => forall i :: 0 <= i < |items| ==> NestedMetric(items[i])
    case _ => false
  }

  /** `CreateTelemetryDto` under the global whitelisting validation pipe. */
  predicate Valid(body: map<string, Json>, isIso8601: string -> bool) {
    OnlyDeclared(body, DTO_FIELDS)
    && IsString(Field(body, "deviceId")) && IsNotEmpty(Field(body, "deviceId"))
    && IsString(Field(body, "siteId")) && IsNotEmpty(Field(body, "siteId"))
    && StringSatisfies(Field(body, "ts"), isIso8601)
    && IsNotEmpty(Field(body, "metrics")) && NestedMetric(body["metrics"])
  }

  /** A metrics object holding exactly two numbers. */
  function MetricObject(temperature: real, humidity: real): Json {
    JObject(map["temperature" := JNumber(temperature), "humidity" := JNumber(humidity)])
  }

  function Body(deviceId: string, siteId: string, ts: string, metrics: Json): map<string, Json> {
    map["deviceId" := JString(deviceId), "siteId" := JString(siteId), "ts" := JString(ts), "metrics" := metrics]
  }

  /** The validated fields: non-empty strings, a timestamp the ISO check accepts, nested metrics. */
  lemma ValidFields(body: map<string, Json>, isIso8601: string -> bool)
    requires Valid(body, isIso8601)
    ensures body.Keys == DTO_FIELDS
    ensures body["deviceId"].JString? && body["deviceId"].s != ""
    ensures body["siteId"].JString? && body["siteId"].s != ""
    ensures body["ts"].JString? && isIso8601(body["ts"].s)
    ensures NestedMetric(body["metrics"])
  {
  }

  /** A body of the documented shape is accepted. */
  lemma WellFormedAccepted(deviceId: string, siteId: string, ts: string, t: real, h: real, isIso8601: string -> bool)
    requires deviceId != "" && siteId != "" && isIso8601(ts) && IsFinite(t) && IsFinite(h)
    ensures Valid(Body(deviceId, siteId, ts, MetricObject(t, h)), isIso8601)
  {
    var m := map["temperature" := JNumber(t), "humidity" := JNumber(h)];
    assert ValidMetric(m);
  }

  /** A property the DTO does not declare makes the body fail. */
  lemma UnknownPropertyRejected(body: map<string, Json>, name: string, isIso8601: string -> bool)
    requires name in body && name !in DTO_FIELDS
    ensures !Valid(body, isIso8601)
  {
  }

  /** `metrics: []` passes: `@IsNotEmpty()` admits an empty array and nested validation has nothing to check. */
  lemma EmptyMetricsArrayAccepted(deviceId: string, siteId: string, ts: string, isIso8601: string -> bool)
    requires deviceId != "" && siteId != "" && isIso8601(ts)
    ensures Valid(Body(deviceId, siteId, ts, JArray([])), isIso8601)
  {
  }

  /** An array of metrics is accepted exactly when each element is. */
  lemma {:induction false} MetricArrays(a: seq<Json>, b: seq<Json>)
    ensures NestedMetric(JArray(a + b)) <==> NestedMetric(JArray(a)) && NestedMetric(JArray(b))
  {
    assert forall i :: 0 <= i < |a| ==> (a + b)[i] == a[i];
    assert forall i :: 0 <= i < |b| ==> (a + b)[|a| + i] == b[i];
  }

  /** A reading whose literal overflows the double range parses to an infinity and fails `@IsNumber()`. */
  lemma OverflowingReadingRejected(deviceId: string, siteId: string, ts: string, t: real, h: real,
                                   isIso8601: string -> bool)
    requires !IsFinite(t) || !IsFinite(h)
    ensures !Valid(Body(deviceId, siteId, ts, MetricObject(t, h)), isIso8601)
  {
    var body := Body(deviceId, siteId, ts, MetricObject(t, h));
    assert body["metrics"] == MetricObject(t, h);
  }

  /** Missing metrics, `null` metrics and a bare number all fail. */
  lemma MetricsMustBeNested(body: map<string, Json>, isIso8601: string -> bool)
    requires "metrics" !in body || body["metrics"] == JNull || body["metrics"].JNumber? || body["metrics"].JString?
    ensures !Valid(body, isIso8601)
  {
  }
}
