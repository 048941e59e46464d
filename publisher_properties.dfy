/** What the publisher promises, proved about the specification functions. */
module PublisherProperties {
  import opened Wrappers
  import opened JavaStrings
  import opened JavaLong
  import opened CloudWatch
  import opened Publisher

  // Configuration fallback

  /** Two job values the resolver cannot tell apart: equal, or both blank. */
  predicate Alike(a: JString, b: JString) {
    a == b || (IsBlank(a) && IsBlank(b))
  }

  /** Null, empty and whitespace-only job values resolve alike, field by field. */
  lemma BlankValuesResolveAlike(job1: Config, job2: Config, defaults: Config)
    requires Alike(job1.region, job2.region)
    requires Alike(job1.namespace, job2.namespace)
    requires Alike(job1.metricName, job2.metricName)
    ensures Resolve(job1, defaults) == Resolve(job2, defaults)
  {
  }

  /** A job whose three values are all blank publishes exactly the global defaults. */
  lemma BlankJobUsesDefaults(job: Config, defaults: Config)
    requires IsBlank(job.region) && IsBlank(job.namespace) && IsBlank(job.metricName)
    ensures Resolve(job, defaults) == defaults
  {
  }

  /** A job whose three values are all non-blank publishes them verbatim,
      whatever the defaults are. */
  lemma NonBlankJobKeptVerbatim(job: Config, defaults: Config)
    requires !IsBlank(job.region) && !IsBlank(job.namespace) && !IsBlank(job.metricName)
    ensures Resolve(job, defaults) == job
  {
  }

  /** Examples: null, empty and whitespace-only jobs publish the defaults. */
  lemma UnsetJobUsesDefaults(defaults: Config)
    ensures Resolve(Config(None, None, None), defaults) == defaults
    ensures Resolve(Config(Some(""), Some(""), Some("")), defaults) == defaults
    ensures Resolve(Config(Some(" \t"), Some("\n"), Some("\r\n ")), defaults) == defaults
  {
  }

  /** A resolved field is blank exactly when the job's and the default are both blank. */
  lemma ResolvedBlankIff(job: Config, defaults: Config)
    ensures var eff := Resolve(job, defaults);
            (IsBlank(eff.region) <==> IsBlank(job.region) && IsBlank(defaults.region))
            && (IsBlank(eff.namespace) <==> IsBlank(job.namespace) && IsBlank(defaults.namespace))
            && (IsBlank(eff.metricName) <==> IsBlank(job.metricName) && IsBlank(defaults.metricName))
  {
  }

  /** Resolving an already resolved triple against the same defaults changes nothing. */
  lemma ResolveIdempotent(job: Config, defaults: Config)
    ensures Resolve(Resolve(job, defaults), defaults) == Resolve(job, defaults)
  {
  }

  /** Example: surrounding spaces of a non-blank job value are kept. */
  lemma NonBlankValueKeptVerbatim(defaults: Config)
    ensures Resolve(Config(Some(" us-east-1 "), Some("Builds"), Some("Duration")), defaults)
            == Config(Some(" us-east-1 "), Some("Builds"), Some("Duration"))
  {
    assert !IsWhitespace(" us-east-1 "[1]);
    assert !IsWhitespace("Builds"[0]);
    assert !IsWhitespace("Duration"[0]);
  }

  // The log

  /** The final log line names the datum's value unambiguously. */
  lemma {:induction false} MetricDataLineInjective(a: Long, b: Long)
    requires MetricDataLine(a) == MetricDataLine(b)
    ensures a == b
  {
    var n := |MetricDataPrefix|;
    var la, lb := MetricDataLine(a), MetricDataLine(b);
    assert |ToString(a)| == |ToString(b)|;
    assert la[n..|la| - 2] == ToString(a);
    assert lb[n..|lb| - 2] == ToString(b);
    ToStringInjective(a, b);
  }

  lemma {:induction false} HeaderIsNotMetricData(job: Config, eff: Config)
    ensures !IsMetricDataLine(RegionLine(eff.region))
    ensures !IsMetricDataLine(NamespaceLine(eff.namespace))
    ensures !IsMetricDataLine(MetricNameLine(job.metricName))
  {
    assert RegionLine(eff.region)[0] == 'R';
    assert NamespaceLine(eff.namespace)[0] == 'N';
    assert MetricNameLine(job.metricName)[6] == 'N';
  }

  /** The log of one `perform`: the region, namespace and job metric-name
      lines, then the value line exactly when `perform` returns `true`. */
  lemma LogOrder(job: Config, defaults: Config, now: Long, start: Long, known: string -> bool, acknowledged: bool)
    ensures var t := Publication(job, defaults, now, start, known, acknowledged);
            var eff := Resolve(job, defaults);
            3 <= |t.log| <= 4
            && t.log[0] == RegionLine(eff.region)
            && t.log[1] == NamespaceLine(eff.namespace)
            && t.log[2] == MetricNameLine(job.metricName)
            && (|t.log| == 4 <==> t.outcome == Returned(true))
            && (|t.log| == 4 ==> |t.sent| == 1 && t.log[3] == MetricDataLine(t.sent[0].request.metricData[0].value))
  {
  }

  /** A "Metric data:" line appears in the log exactly when `perform` returns `true`. */
  lemma MetricDataLoggedIffReturned(job: Config, defaults: Config, now: Long, start: Long, known: string -> bool, acknowledged: bool)
    ensures var t := Publication(job, defaults, now, start, known, acknowledged);
            (exists i :: 0 <= i < |t.log| && IsMetricDataLine(t.log[i])) <==> t.outcome == Returned(true)
  {
    var t := Publication(job, defaults, now, start, known, acknowledged);
    var eff := Resolve(job, defaults);
    HeaderIsNotMetricData(job, eff);
    if t.outcome == Returned(true) {
      var v := t.sent[0].request.metricData[0].value;
      assert t.log[3] == MetricDataLine(v);
      assert t.log[3][..|MetricDataPrefix|] == MetricDataPrefix;
    }
  }

  /** `perform` returns `true` exactly when the region is known and the
      service acknowledged; it never returns `false`; an unknown region is
      reported with the name that was looked up. */
  lemma OutcomeCases(job: Config, defaults: Config, now: Long, start: Long, known: string -> bool, acknowledged: bool)
    ensures var t := Publication(job, defaults, now, start, known, acknowledged);
            var r := Resolve(job, defaults).region;
            (t.outcome == Returned(true) <==> r.Some? && known(r.value) && acknowledged)
            && t.outcome != Returned(false)
            && (t.outcome == Threw(UnknownRegion(r)) <==> !(r.Some? && known(r.value)))
            && (t.outcome == Threw(SubmissionFailed) <==> r.Some? && known(r.value) && !acknowledged)
  {
  }

  /** At most one request is submitted, none when the region lookup fails,
      and it carries the resolved namespace and exactly one datum: the resolved
      metric name, the publication instant, milliseconds, and the elapsed time. */
  lemma SubmittedRequest(job: Config, defaults: Config, now: Long, start: Long, known: string -> bool, acknowledged: bool)
    ensures var t := Publication(job, defaults, now, start, known, acknowledged);
            var eff := Resolve(job, defaults);
            |t.sent| <= 1
            && (t.sent == [] <==> !(eff.region.Some? && known(eff.region.value)))
            && forall s :: s in t.sent ==>
                 Some(s.region) == eff.region
                 && s.request.namespace == eff.namespace
                 && |s.request.metricData| == 1
                 && s.request.metricData[0].metricName == eff.metricName
                 && s.request.metricData[0].timestamp == now
                 && s.request.metricData[0].unit == Milliseconds
                 && (InLongRange(now - start) ==> s.request.metricData[0].value == now - start)
  {
  }

  /** The value in the last log line is the value of the datum that was submitted. */
  lemma LoggedValueIsSubmittedValue(job: Config, defaults: Config, now: Long, start: Long,
                                    known: string -> bool, acknowledged: bool, v: Long)
    requires var t := Publication(job, defaults, now, start, known, acknowledged);
             t.outcome == Returned(true) && t.log[|t.log| - 1] == MetricDataLine(v)
    ensures var t := Publication(job, defaults, now, start, known, acknowledged);
            |t.sent| == 1 && t.sent[0].request.metricData[0].value == v
            && (InLongRange(now - start) ==> v == now - start)
  {
    var t := Publication(job, defaults, now, start, known, acknowledged);
    MetricDataLineInjective(v, t.sent[0].request.metricData[0].value);
  }

  // Worked examples

  /** A job that sets all three fields; the build took 2345 ms. */
  lemma AllFieldsFromJob()
    ensures var t := Publication(Config(Some("us-east-1"), Some("Builds"), Some("Duration")),
                                 Config(None, None, None), 1_002_345, 1_000_000, r => r == "us-east-1", true);
            t.sent == [Submission("us-east-1", PutMetricDataRequest(Some("Builds"),
                                  [MetricDatum(Some("Duration"), 1_002_345, Milliseconds, 2345)]))]
            && t.log == ["RegionName: us-east-1", "Namespace: Builds", "MetricName: Duration", "Metric data: 2345ms"]
            && t.outcome == Returned(true)
  {
    assert !IsWhitespace("us-east-1"[0]);
    assert !IsWhitespace("Builds"[0]);
    assert !IsWhitespace("Duration"[0]);
    assert DecimalDigits(2345) == "2345" by {
      assert DecimalDigits(2) == "2";
      assert DecimalDigits(23) == "23";
      assert DecimalDigits(234) == "234";
    }
    assert RegionLine(Some("us-east-1")) == "RegionName: us-east-1";
    assert NamespaceLine(Some("Builds")) == "Namespace: Builds";
    assert MetricNameLine(Some("Duration")) == "MetricName: Duration";
    assert MetricDataLine(2345) == "Metric data: 2345ms";
  }

  /** A blank job metric name: the datum takes the default name, but the
      log line shows the job's own (blank) value. */
  lemma MetricNameLogShowsJobValue()
    ensures var t := Publication(Config(Some("us-east-1"), Some("Builds"), Some(" ")),
                                 Config(None, None, Some("DefaultMetric")), 10, 0, r => true, true);
            |t.log| >= 3 && |t.sent| == 1
            && t.log[2] == "MetricName:  " && t.sent[0].request.metricData[0].metricName == Some("DefaultMetric")
  {
    assert !IsWhitespace("us-east-1"[0]);
    assert !IsWhitespace("Builds"[0]);
    assert MetricNameLine(Some(" ")) == "MetricName:  ";
  }

  /** No region anywhere: the log shows "null", the lookup fails, nothing is sent. */
  lemma NoRegionConfigured()
    ensures var t := Publication(Config(None, Some("Builds"), Some("Duration")),
                                 Config(None, None, None), 10, 0, r => true, true);
            t.log == ["RegionName: null", "Namespace: Builds", "MetricName: Duration"]
            && t.sent == [] && t.outcome == Threw(UnknownRegion(None))
  {
    assert !IsWhitespace("Builds"[0]);
    assert !IsWhitespace("Duration"[0]);
    assert RegionLine(None) == "RegionName: null";
    assert NamespaceLine(Some("Builds")) == "Namespace: Builds";
    assert MetricNameLine(Some("Duration")) == "MetricName: Duration";
  }

  /** A clock that went backward gives a negative value; nothing clamps it. */
  lemma ClockSkewIsNotClamped()
    ensures var t := Publication(Config(Some("us-east-1"), Some("Builds"), Some("Duration")),
                                 Config(None, None, None), 4999, 5000, r => true, true);
            |t.sent| == 1 && |t.log| == 4
            && t.sent[0].request.metricData[0].value == -1 && t.log[3] == "Metric data: -1ms"
  {
    assert !IsWhitespace("us-east-1"[0]);
    assert !IsWhitespace("Builds"[0]);
    assert !IsWhitespace("Duration"[0]);
    assert ToString(-1) == "-1";
    assert MetricDataLine(-1) == "Metric data: -1ms";
  }
}
