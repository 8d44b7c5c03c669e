/** The persisted record and the summary shape of the telemetry service. */
module TelemetryTypes {

  /** Numbers are JSON numbers; float rounding is not modelled, so they are `real`. */
  datatype Metrics = Metrics(temperature: real, humidity: real)

  /** A persisted reading; `ts` is the instant in milliseconds since the epoch. */
  datatype Telemetry = Telemetry(deviceId: string, siteId: string, ts: int, metrics: Metrics)

  /** The aggregate returned by the summary query. */
  datatype SummaryResult = SummaryResult(
    count: nat,
    avgTemperature: real,
    maxTemperature: real,
    avgHumidity: real,
    maxHumidity: real,
    uniqueDevices: nat)

  const EmptySummary := SummaryResult(0, 0.0, 0.0, 0.0, 0.0, 0)
}
