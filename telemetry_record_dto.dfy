/**
 * The ingestion DTO with the length bound of the record schema: string
 * ids of at most 50 characters, a date string, and a metrics object. The
 * date-string check is a parameter. Every field is required.
 */
module TelemetryRecordDto {
  import opened Results
  import opened Json
  import TelemetryDto

  const MAX_ID_LENGTH := 50

  /** `MetricsDto`: both readings are numbers, nothing else is present. */
  predicate ValidMetrics(fields: map<string, Json>) {
    OnlyDeclared(fields, TelemetryDto.METRIC_FIELDS)
    && IsNumber(Field(fields, "temperature"))
    && IsNumber(Field(fields, "humidity"))
  }

  /** `CreateTelemetryDto` (record variant) under the global whitelisting validation pipe. */
  predicate Valid(body: map<string, Json>, isDateString: string -> bool) {
    OnlyDeclared(body, TelemetryDto.DTO_FIELDS)
    && IsString(Field(body, "deviceId")) && MaxLength(Field(body, "deviceId"), MAX_ID_LENGTH)
    && IsString(Field(body, "siteId")) && MaxLength(Field(body, "siteId"), MAX_ID_LENGTH)
    && StringSatisfies(Field(body, "ts"), isDateString)
    && IsObject(Field(body, "metrics")) && ValidMetrics(body["metrics"].fields)
  }

  /** The validated fields: bounded strings, a date string, a metrics object of two numbers. */
  lemma ValidFields(body: map<string, Json>, isDateString: string -> bool)
    requires Valid(body, isDateString)
    ensures body.Keys == TelemetryDto.DTO_FIELDS
    ensures body["deviceId"].JString? && ValidatorLength(body["deviceId"].s) <= MAX_ID_LENGTH
    ensures body["siteId"].JString? && ValidatorLength(body["siteId"].s) <= MAX_ID_LENGTH
    ensures body["ts"].JString? && isDateString(body["ts"].s)
    ensures body["metrics"].JObject? && body["metrics"].fields.Keys == TelemetryDto.METRIC_FIELDS
    ensures body["metrics"].fields["temperature"].JNumber? && body["metrics"].fields["humidity"].JNumber?
  {
  }

  /** A property the DTO does not declare makes the body fail. */
  lemma UnknownPropertyRejected(body: map<string, Json>, name: string, isDateString: string -> bool)
    requires name in body && name !in TelemetryDto.DTO_FIELDS
    ensures !Valid(body, isDateString)
  {
  }

  /**
   * The two variants agree on bodies of the documented shape: non-empty
   * ids within the bound, a timestamp both date checks accept, and a
   * metrics object of two numbers.
   */
  lemma VariantsAgreeOnWellFormed(deviceId: string, siteId: string, ts: string, t: real, h: real,
                                  isIso8601: string -> bool, isDateString: string -> bool)
    requires deviceId != "" && siteId != ""
    requires ValidatorLength(deviceId) <= MAX_ID_LENGTH && ValidatorLength(siteId) <= MAX_ID_LENGTH
    requires isIso8601(ts) && isDateString(ts) && IsFinite(t) && IsFinite(h)
    ensures Valid(TelemetryDto.Body(deviceId, siteId, ts, TelemetryDto.MetricObject(t, h)), isDateString)
    ensures TelemetryDto.Valid(TelemetryDto.Body(deviceId, siteId, ts, TelemetryDto.MetricObject(t, h)), isIso8601)
  {
    TelemetryDto.WellFormedAccepted(deviceId, siteId, ts, t, h, isIso8601);
  }

  /** Only this variant accepts empty ids: it has no non-empty check. */
  lemma EmptyIdsOnlyHere(ts: string, t: real, h: real, isIso8601: string -> bool, isDateString: string -> bool)
    requires isDateString(ts) && IsFinite(t) && IsFinite(h)
    ensures Valid(TelemetryDto.Body("", "", ts, TelemetryDto.MetricObject(t, h)), isDateString)
    ensures !TelemetryDto.Valid(TelemetryDto.Body("", "", ts, TelemetryDto.MetricObject(t, h)), isIso8601)
  {
  }

  /** Only the other variant accepts ids longer than 50 characters. */
  lemma LongIdsOnlyThere(deviceId: string, siteId: string, ts: string, t: real, h: real,
                         isIso8601: string -> bool, isDateString: string -> bool)
    requires ValidatorLength(deviceId) > MAX_ID_LENGTH && siteId != "" && isIso8601(ts) && IsFinite(t) && IsFinite(h)
    ensures !Valid(TelemetryDto.Body(deviceId, siteId, ts, TelemetryDto.MetricObject(t, h)), isDateString)
    ensures TelemetryDto.Valid(TelemetryDto.Body(deviceId, siteId, ts, TelemetryDto.MetricObject(t, h)), isIso8601)
  {
    var body := TelemetryDto.Body(deviceId, siteId, ts, TelemetryDto.MetricObject(t, h));
    assert Field(body, "deviceId") == Some(JString(deviceId));
    assert deviceId != "";
    TelemetryDto.WellFormedAccepted(deviceId, siteId, ts, t, h, isIso8601);
  }

  /** A reading whose literal overflows the double range fails here as well. */
  lemma OverflowingReadingRejected(deviceId: string, siteId: string, ts: string, t: real, h: real,
                                   isDateString: string -> bool)
    requires !IsFinite(t) || !IsFinite(h)
    ensures !Valid(TelemetryDto.Body(deviceId, siteId, ts, TelemetryDto.MetricObject(t, h)), isDateString)
  {
    var body := TelemetryDto.Body(deviceId, siteId, ts, TelemetryDto.MetricObject(t, h));
    assert body["metrics"] == TelemetryDto.MetricObject(t, h);
  }

  /** Only the other variant accepts an array of metrics: `@IsObject()` refuses arrays. */
  lemma MetricArraysOnlyThere(ts: string, items: seq<Json>, isIso8601: string -> bool, isDateString: string -> bool)
    requires isIso8601(ts) && TelemetryDto.NestedMetric(JArray(items))
    ensures !Valid(TelemetryDto.Body("dev-1", "site-A", ts, JArray(items)), isDateString)
    ensures TelemetryDto.Valid(TelemetryDto.Body("dev-1", "site-A", ts, JArray(items)), isIso8601)
  {
  }
}
