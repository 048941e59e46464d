/** The parts of the CloudWatch client API the publisher uses, as values:
    a metric datum, a `PutMetricData` request, the region lookup, and the
    service endpoint that receives requests. */
module CloudWatch {
  import opened Wrappers
  import opened JavaStrings
  import opened JavaLong

  /** `StandardUnit`, abbreviated to a few of its members. */
  datatype StandardUnit = Seconds | Microseconds | Milliseconds | Bytes | Count | Percent

  /** `MetricDatum`. The timestamp is a `Date` held as epoch milliseconds;
      the value is kept as the `long` it is computed from. */
  datatype MetricDatum = MetricDatum(metricName: JString, timestamp: Long, unit: StandardUnit, value: Long)

  /** `PutMetricDataRequest`: a namespace and a list of data. */
  datatype PutMetricDataRequest = PutMetricDataRequest(namespace: JString, metricData: seq<MetricDatum>)

  /** One request as it reached the service, with the region the client was bound to. */
  datatype Submission = Submission(region: string, request: PutMetricDataRequest)

  /** `Regions.fromName`: the region whose name is exactly `name`, if the SDK
      knows one; `known` stands for the SDK's region table. A null name names
      no region. */
  function RegionFromName(name: JString, known: string -> bool): Option<string> {
    if name.Some? && known(name.value) then Some(name.value) else None
  }

  /** The CloudWatch service as seen through a client: every request handed
      to `putMetricData` is recorded, whether or not it reaches the service
      and whether or not the call then succeeds. */
  class MetricService {
    var handed: seq<Submission>

    constructor ()
      ensures handed == []
    {
      handed := [];
    }

    /** `AmazonCloudWatch.putMetricData` on a client bound to `region`.
        Whether the call returns normally (credentials found, transport and
        service accepted it) is decided by the environment: `acknowledged`. */
    method PutMetricData(region: string, request: PutMetricDataRequest, acknowledged: bool) returns (ok: bool)
      modifies this
      ensures handed == old(handed) + [Submission(region, request)]
      ensures ok == acknowledged
    {
      handed := handed + [Submission(region, request)];
      ok := acknowledged;
    }
  }
}
