/** The entities of pkg/domain that travel through the pipeline.  Times are
    integers counted from Go's zero time, so `time.Time.IsZero` is `== 0`. */
module Domain {

  datatype Option<+T> = None | Some(value: T)

  datatype Result<+T, +E> = Ok(value: T) | Err(error: E)

  datatype TelemetryRecord = TelemetryRecord(
    gpuUuid: string,
    metricName: string,
    value: string,
    ingestionTime: int,
    container: string,
    pod: string,
    ns: string,
    hostname: string,
    modelName: string,
    gpuId: string,
    device: string)

  datatype Gpu = Gpu(
    uuid: string,
    gpuId: string,
    device: string,
    model: string,
    hostname: string,
    container: string,
    pod: string,
    ns: string)

  /** A message is immutable once published; a missing payload is Go's nil. */
  datatype Message = Message(id: string, payload: Option<TelemetryRecord>, timestamp: int, producerId: string)

  datatype QueryError = MissingGpuUuid | InvalidTimeRange

  datatype TelemetryQuery = TelemetryQuery(gpuUuid: string, startTime: Option<int>, endTime: Option<int>) {

    function Validate(): Option<QueryError> {
      if gpuUuid == "" then Some(MissingGpuUuid)
      else if startTime.Some? && endTime.Some? && startTime.value > endTime.value then Some(InvalidTimeRange)
      else None
    }

    predicate Matches(record: TelemetryRecord) {
      if record.gpuUuid != gpuUuid then false
      else if startTime.Some? && record.ingestionTime < startTime.value then false
      else if endTime.Some? && record.ingestionTime > endTime.value then false
      else true
    }
  }
}
