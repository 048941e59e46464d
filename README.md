# Amazon CloudWatch publisher for Jenkins, modelled in Dafny

The plugin is a Jenkins post-build step, `AmazonCloudWatchPublisher`. After a
build it publishes one custom CloudWatch metric: the build's duration in
milliseconds. Each job may set a region, a namespace and a metric name. A field
the job leaves blank falls back to the global default held by the step's
`DescriptorImpl`.

This project models the plugin's own logic:

- **Configuration fallback** (`Publisher.Resolve`). Each field goes through
  Commons Lang's `defaultIfBlank`. Java strings that may be `null` are
  `Option<string>` (`JavaStrings.JString`). Blankness uses
  `Character.isWhitespace` (`JavaStrings.IsWhitespace`).
- **Datum and request construction** (`Publisher.BuildRequest`). The
  publication instant and the build start are epoch milliseconds of type
  `long`. Their difference is Java's wrapping 64-bit subtraction
  (`JavaLong.Sub`).
- **`perform`** (`Publisher.AmazonCloudWatchPublisher.Perform`). This is an
  imperative method. It appends lines to a `BuildLog` and hands at most one
  request to a `CloudWatch.MetricService`. It is proved against the
  specification function `Publisher.Publication`, which gives the lines
  logged, the requests submitted and how the call ends. The lemmas in
  `PublisherProperties` state what the plugin promises about that trace.
- **Global defaults** (`Publisher.DescriptorImpl`). This is a class with three
  mutable fields that `Configure` overwrites together.

Exceptions become `Publisher.Outcome.Threw`. An unknown region
(`Regions.fromName` throws) is `UnknownRegion`. A failing
`putMetricData` call is `SubmissionFailed`. That covers missing credentials,
transport errors, service errors and interruption. Three things are
parameters of `Perform`:

- the wall clock, as `now`;
- the SDK's region table, as `known: string -> bool`;
- the service's answer to the call, as `acknowledged`.

Files:

- `wrappers.dfy`: `Option`.
- `java_strings.dfy`: JDK and Commons Lang string semantics.
- `java_long.dfy`: `long` subtraction, `Long.toString` and its inverse.
- `cloudwatch.dfy`: SDK values, region lookup and the service endpoint.
- `publisher.dfy`: the plugin.
- `publisher_properties.dfy`: the properties and worked examples.

## Behaviour worth knowing

- A negative duration is not clamped. A clock that went backward yields a
  negative value; see `PublisherProperties.ClockSkewIsNotClamped`.
- Nothing checks that a resolved field is non-blank:
  - a null value is logged as "null";
  - a null or unknown region fails at `Regions.fromName`;
  - a blank namespace or metric name is passed on to the service.

  See `PublisherProperties.NoRegionConfigured`.
- A failing `perform` throws; it never returns `false`. See
  `PublisherProperties.OutcomeCases`.
- Line 79 logs the job's own raw `getMetricName()`, while the datum carries
  the resolved name. See `PublisherProperties.MetricNameLogShowsJobValue`.
- The datum is stamped with the publication instant `new Date()`, not the
  build start.

## Model

| member | source | states |
|---|---|---|
| Publisher.Resolve | src/main/java/jp/recochoku/jenkins/plugin/watch/AmazonCloudWatchPublisher.java:72-74 | each of region, namespace and metric name is the job's value when that value is not blank, and the global default otherwise, independently per field |
| PublisherProperties.BlankValuesResolveAlike | src/main/java/jp/recochoku/jenkins/plugin/watch/AmazonCloudWatchPublisher.java:72-74 | job values that are equal or both blank (null, empty, whitespace only) resolve to the same triple |
| PublisherProperties.BlankJobUsesDefaults | src/main/java/jp/recochoku/jenkins/plugin/watch/AmazonCloudWatchPublisher.java:72-74 | every job whose three values are blank (null, empty or whitespace only) publishes exactly the global defaults |
| PublisherProperties.NonBlankJobKeptVerbatim | src/main/java/jp/recochoku/jenkins/plugin/watch/AmazonCloudWatchPublisher.java:72-74 | every job whose three values are non-blank publishes them unchanged, whatever the defaults |
| PublisherProperties.UnsetJobUsesDefaults | src/main/java/jp/recochoku/jenkins/plugin/watch/AmazonCloudWatchPublisher.java:72-74 | examples: a job whose fields are all null, all empty, or one given whitespace-only triple publishes the defaults |
| PublisherProperties.ResolvedBlankIff | src/main/java/jp/recochoku/jenkins/plugin/watch/AmazonCloudWatchPublisher.java:72-74 | a resolved field is blank exactly when both the job's value and the default are blank: nothing checks it further |
| PublisherProperties.ResolveIdempotent | src/main/java/jp/recochoku/jenkins/plugin/watch/AmazonCloudWatchPublisher.java:72-74 | resolving the resolved triple against the same defaults gives it back |
| PublisherProperties.NonBlankValueKeptVerbatim | src/main/java/jp/recochoku/jenkins/plugin/watch/AmazonCloudWatchPublisher.java:72-74 | example: the non-blank value " us-east-1 " is returned with its surrounding spaces |
| JavaStrings.BlankIffStripsToEmpty | src/main/java/jp/recochoku/jenkins/plugin/watch/AmazonCloudWatchPublisher.java:72-74 | the blank test used by the fallback holds exactly when stripping whitespace from both ends leaves the empty string |
| JavaLong.Sub | src/main/java/jp/recochoku/jenkins/plugin/watch/AmazonCloudWatchPublisher.java:85 | the long difference is congruent to the true difference modulo 2^64 and equals it whenever it fits in a long |
| Publisher.BuildRequest | src/main/java/jp/recochoku/jenkins/plugin/watch/AmazonCloudWatchPublisher.java:83-89 | the request carries the given namespace and exactly one datum, which has the resolved metric name, the publication instant as timestamp, unit Milliseconds, and value now minus start (modulo 2^64, exact when representable) |
| JavaLong.DecimalDigits | src/main/java/jp/recochoku/jenkins/plugin/watch/AmazonCloudWatchPublisher.java:90 | the decimal rendering of a long in the last log line is a non-empty string of digits with no leading zero ("0" only for zero) |
| JavaLong.DecimalDigitsValue | src/main/java/jp/recochoku/jenkins/plugin/watch/AmazonCloudWatchPublisher.java:90 | reading the printed digits back gives the number printed |
| JavaLong.ToStringRoundTrip | src/main/java/jp/recochoku/jenkins/plugin/watch/AmazonCloudWatchPublisher.java:90 | the printed long is a well-formed decimal whose value is the long itself |
| JavaLong.ToStringInjective | src/main/java/jp/recochoku/jenkins/plugin/watch/AmazonCloudWatchPublisher.java:90 | two longs that print alike are equal |
| PublisherProperties.MetricDataLineInjective | src/main/java/jp/recochoku/jenkins/plugin/watch/AmazonCloudWatchPublisher.java:90 | the "Metric data: <value>ms" line determines the value it reports |
| PublisherProperties.HeaderIsNotMetricData | src/main/java/jp/recochoku/jenkins/plugin/watch/AmazonCloudWatchPublisher.java:77-79 | none of the three lines logged before submission can be taken for a "Metric data:" line |
| PublisherProperties.LogOrder | src/main/java/jp/recochoku/jenkins/plugin/watch/AmazonCloudWatchPublisher.java:77-91 | the log is RegionName (resolved), Namespace (resolved), MetricName (the job's raw value), then "Metric data:" with the submitted datum's value exactly when perform returns true |
| PublisherProperties.MetricDataLoggedIffReturned | src/main/java/jp/recochoku/jenkins/plugin/watch/AmazonCloudWatchPublisher.java:82-91 | a "Metric data:" line is logged if and only if perform returns true |
| PublisherProperties.OutcomeCases | src/main/java/jp/recochoku/jenkins/plugin/watch/AmazonCloudWatchPublisher.java:82-91 | perform returns true exactly when the resolved region is known and the service acknowledges, otherwise it throws UnknownRegion with the looked-up name or SubmissionFailed, and it never returns false |
| PublisherProperties.SubmittedRequest | src/main/java/jp/recochoku/jenkins/plugin/watch/AmazonCloudWatchPublisher.java:82-89 | at most one request is submitted, none when region lookup fails, and it goes to the resolved region with the resolved namespace and one datum (resolved name, publication instant, Milliseconds, elapsed time) |
| PublisherProperties.LoggedValueIsSubmittedValue | src/main/java/jp/recochoku/jenkins/plugin/watch/AmazonCloudWatchPublisher.java:85-90 | the value in the final log line is exactly the submitted datum's value, which is now minus start when that fits in a long |
| PublisherProperties.AllFieldsFromJob | src/main/java/jp/recochoku/jenkins/plugin/watch/AmazonCloudWatchPublisher.java:72-91 | a job setting us-east-1, Builds and Duration, published 2345 ms after start, submits one datum of value 2345 and logs the four lines |
| PublisherProperties.MetricNameLogShowsJobValue | src/main/java/jp/recochoku/jenkins/plugin/watch/AmazonCloudWatchPublisher.java:79 | with a blank job metric name the MetricName line shows the job's blank value while the datum carries the default name |
| PublisherProperties.NoRegionConfigured | src/main/java/jp/recochoku/jenkins/plugin/watch/AmazonCloudWatchPublisher.java:72-82 | with no region anywhere the log shows "RegionName: null", nothing is submitted and perform throws UnknownRegion |
| PublisherProperties.ClockSkewIsNotClamped | src/main/java/jp/recochoku/jenkins/plugin/watch/AmazonCloudWatchPublisher.java:85-90 | a publication 1 ms before the start gives value -1, and the log line says -1ms |
| Publisher.AmazonCloudWatchPublisher.Perform | src/main/java/jp/recochoku/jenkins/plugin/watch/AmazonCloudWatchPublisher.java:70-92 | the log gains exactly the lines of the Publication trace, the service receives exactly its submissions, and the outcome is its outcome |
| Publisher.AmazonCloudWatchPublisher.constructor | src/main/java/jp/recochoku/jenkins/plugin/watch/AmazonCloudWatchPublisher.java:51-67 | the job-level step stores its three arguments unchanged, and the getters return them |
| Publisher.DescriptorImpl.constructor | src/main/java/jp/recochoku/jenkins/plugin/watch/AmazonCloudWatchPublisher.java:111-113 | the global defaults start as the persisted triple that load() restores |
| Publisher.DescriptorImpl.Configure | src/main/java/jp/recochoku/jenkins/plugin/watch/AmazonCloudWatchPublisher.java:120-138 | all three global defaults become the form's values, and the getters then return exactly those |
| Publisher.BuildLog.Println | src/main/java/jp/recochoku/jenkins/plugin/watch/AmazonCloudWatchPublisher.java:77-79 | printing a line appends exactly that line to the build log |
| CloudWatch.MetricService.PutMetricData | src/main/java/jp/recochoku/jenkins/plugin/watch/AmazonCloudWatchPublisher.java:88-89 | the request and its region are recorded as handed to putMetricData, and the call succeeds exactly when the service acknowledges |

## Left out

- AWS SDK internals: the credential provider chain, client construction and
  the region table (lines 80-82). The region table is the `known` parameter.
  Whether a `putMetricData` call succeeds is the `acknowledged` parameter.
  SDK-side retries and request validation are not modelled.
- The double cast at line 87: the datum's value is kept as the `long`
  computed at line 85. Floating-point semantics are out of scope.
- The wall clock `new Date()` (line 83): the instant is the `now` parameter.
- Jenkins persistence and binding: `load()` / `save()` (lines 112, 124),
  `super.configure` and its result, and form binding through
  `StaplerRequest` / `JSONObject`. `Configure` takes the three form
  strings directly, so a missing form key (which throws) is not modelled.
- Plugin registration, `getDisplayName`, the `getDescriptor` cast, and
  `getRequiredMonitorService` (line 96), a constant used only by the host's
  scheduler.
- The getters (lines 57-67, 128-138) are plain field reads. They appear as
  `JobConfig()` and `Defaults()`.
- Concurrency between builds, and configuration changes during a
  `perform`: the model reads the defaults once.
- `StandardUnit` is abbreviated to a few of the SDK's units.
- `JavaStrings.IsWhitespace` follows `Character.isWhitespace` for current
  Unicode tables. Older JDKs also count U+180E as whitespace.
- Java strings are UTF-16. The model uses sequences of Unicode scalar
  values. No supplementary character is whitespace, so blankness is the same.
