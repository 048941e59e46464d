/** The post-build publisher: per-job settings falling back to the global
    defaults, the one datum and request built from the build's start time,
    and `perform`, which logs, submits and reports. */
module Publisher {
  import opened Wrappers
  import opened JavaStrings
  import opened JavaLong
  import opened CloudWatch

  /** A (region, namespace, metric name) triple, as a job or the global
      configuration holds it; any of the three may be null. */
  datatype Config = Config(region: JString, namespace: JString, metricName: JString)

  /** The settings `perform` uses: each job value unless it is blank, in
      which case the global default, whatever that is. */
  function Resolve(job: Config, defaults: Config): (eff: Config)
    ensures !IsBlank(job.region) ==> eff.region == job.region
    ensures IsBlank(job.region) ==> eff.region == defaults.region
    ensures !IsBlank(job.namespace) ==> eff.namespace == job.namespace
    ensures IsBlank(job.namespace) ==> eff.namespace == defaults.namespace
    ensures !IsBlank(job.metricName) ==> eff.metricName == job.metricName
    ensures IsBlank(job.metricName) ==> eff.metricName == defaults.metricName
  {
    Config(DefaultIfBlank(job.region, defaults.region),
           DefaultIfBlank(job.namespace, defaults.namespace),
           DefaultIfBlank(job.metricName, defaults.metricName))
  }

  /** The request for a build that started at `start` and is published at
      `now`: one datum named after the metric, stamped with the publication
      instant, in milliseconds, whose value is the elapsed time. */
  function BuildRequest(namespace: JString, metricName: JString, now: Long, start: Long): (req: PutMetricDataRequest)
    ensures req.namespace == namespace && |req.metricData| == 1
    ensures req.metricData[0].metricName == metricName
    ensures req.metricData[0].timestamp == now && req.metricData[0].unit == Milliseconds
    ensures (now - start - req.metricData[0].value) % TwoTo64 == 0
    ensures InLongRange(now - start) ==> req.metricData[0].value == now - start
  {
    var datum := MetricDatum(metricName, now, Milliseconds, Sub(now, start));
    PutMetricDataRequest(namespace, [datum])
  }

  // The lines `perform` writes to the build log.

  function RegionLine(region: JString): string {
    Concat("RegionName: ", region)
  }

  function NamespaceLine(namespace: JString): string {
    Concat("Namespace: ", namespace)
  }

  function MetricNameLine(metricName: JString): string {
    Concat("MetricName: ", metricName)
  }

  const MetricDataPrefix: string := "Metric data: "

  function MetricDataLine(value: Long): string {
    MetricDataPrefix + ToString(value) + "ms"
  }

  predicate IsMetricDataLine(line: string) {
    |line| >= |MetricDataPrefix| && line[..|MetricDataPrefix|] == MetricDataPrefix
  }

  /** Why `perform` threw instead of returning. */
  datatype Failure =
    | UnknownRegion(name: JString)  // `Regions.fromName` rejected the resolved region
    | SubmissionFailed               // `putMetricData` threw (credentials, transport, service)

  /** How `perform` ended: a returned boolean, or an exception. */
  datatype Outcome = Returned(result: bool) | Threw(failure: Failure)

  /** Everything one `perform` does, in order: the lines it logs, the
      requests it hands to the service, and how it ends. */
  datatype Trace = Trace(log: seq<string>, sent: seq<Submission>, outcome: Outcome)

  /** The specification of `perform` for a job configured with `job`,
      global defaults `defaults`, a build started at `start` and published
      at `now`; `known` is the SDK's region table and `acknowledged` the
      service's answer. */
  function Publication(job: Config, defaults: Config, now: Long, start: Long,
                       known: string -> bool, acknowledged: bool): Trace
  {
    var eff := Resolve(job, defaults);
    var header := [RegionLine(eff.region), NamespaceLine(eff.namespace), MetricNameLine(job.metricName)];
    match RegionFromName(eff.region, known)
    case None => Trace(header, [], Threw(UnknownRegion(eff.region)))
    case Some(region) =>
      var req := BuildRequest(eff.namespace, eff.metricName, now, start);
      if acknowledged then
        Trace(header + [MetricDataLine(req.metricData[0].value)], [Submission(region, req)], Returned(true))
      else
        Trace(header, [Submission(region, req)], Threw(SubmissionFailed))
  }

  /** A build's log: `listener.getLogger()`, a sequence of printed lines. */
  class BuildLog {
    var lines: seq<string>

    constructor ()
      ensures lines == []
    {
      lines := [];
    }

    method Println(line: string)
      modifies this
      ensures lines == old(lines) + [line]
    {
      lines := lines + [line];
    }
  }

  /** `DescriptorImpl`: the global defaults, set from the global configuration form. */
  class DescriptorImpl {
    var region: JString
    var namespace: JString
    var metricName: JString

    /** The defaults `load()` restored from the host's persisted configuration. */
    constructor (persisted: Config)
      ensures Defaults() == persisted
    {
      region, namespace, metricName := persisted.region, persisted.namespace, persisted.metricName;
    }

    /** What the three getters return. */
    function Defaults(): Config
      reads this
    {
      Config(region, namespace, metricName)
    }

    /** `configure`: the three form values replace all three defaults. */
    method Configure(formRegion: string, formNamespace: string, formMetricName: string)
      modifies this
      ensures Defaults() == Config(Some(formRegion), Some(formNamespace), Some(formMetricName))
    {
      region := Some(formRegion);
      namespace := Some(formNamespace);
      metricName := Some(formMetricName);
    }
  }

  /** `AmazonCloudWatchPublisher`: one job's settings and its post-build step. */
  class AmazonCloudWatchPublisher {
    const region: JString
    const namespace: JString
    const metricName: JString

    constructor (region: JString, namespace: JString, metricName: JString)
      ensures JobConfig() == Config(region, namespace, metricName)
    {
      this.region, this.namespace, this.metricName := region, namespace, metricName;
    }

    /** What the three getters return. */
    function JobConfig(): Config {
      Config(region, namespace, metricName)
    }

    /** `perform`: resolve the settings, log them, bind a client to the
        region, submit one datum and log its value. */
    method Perform(descriptor: DescriptorImpl, log: BuildLog, service: MetricService,
                   now: Long, start: Long, known: string -> bool, acknowledged: bool)
      returns (outcome: Outcome)
      modifies log, service
      ensures var t := Publication(JobConfig(), descriptor.Defaults(), now, start, known, acknowledged);
              log.lines == old(log.lines) + t.log
              && service.handed == old(service.handed) + t.sent
              && outcome == t.outcome
    {
      var eff := Resolve(JobConfig(), descriptor.Defaults());
      log.Println(RegionLine(eff.region));
      log.Println(NamespaceLine(eff.namespace));
      log.Println(MetricNameLine(metricName));
      var bound := RegionFromName(eff.region, known);
      if bound.None? {
        return Threw(UnknownRegion(eff.region));
      }
      var request := BuildRequest(eff.namespace, eff.metricName, now, start);
      var ok := service.PutMetricData(bound.value, request, acknowledged);
      if !ok {
        return Threw(SubmissionFailed);
      }
      log.Println(MetricDataLine(request.metricData[0].value));
      return Returned(true);
    }
  }
}
